/**
  The spinlock that a timer takes back (tmdspinlock.c, timer.c), as the
  interleaving of the atomic actions of any number of clients, each with at most
  one handler in flight (server.c), and of the timer thread.
*/
module TimedLock {
  import opened RaftTypes

  /** What a handler wants the pause for: to write a file, to log, or to release the lock. */
  datatype Purpose = Write | Log | Release

  /** The next atomic action of a client's handler. */
  datatype Pc =
    | Rest
    // tmdspinlock_acquire, then the start of a transaction in handle_lock_acquire
    | CheckNotOwner
    | Spin
    | SetHolder
    | Arm
    | OpenTransaction
    // tmdspinlock_pause_if_owner
    | CheckOwner(why: Purpose)
    | Disable(why: Purpose)
    | Recheck(why: Purpose)
    | Resume(why: Purpose)
    // between a successful pause and tmdspinlock_reset_if_owner
    | Work(why: Purpose)
    | CheckStillOwner(why: Purpose)
    | Rearm(why: Purpose)
    // the rest of tmdspinlock_release
    | ClearHolder
    | FreeFlag

  /** The timer thread holds timer.lock in all but its first state. */
  datatype TimerPc = Polling | Expiring | Clearing

  datatype State = State(flag: bool, holder: Option<nat>, count: int, timer: TimerPc, pcs: map<nat, Pc>)

  datatype Action = Acquire(c: nat) | Append(c: nat) | Finish(c: nat) | Next(c: nat) | Fire | Expire | Free

  function Start(): State {
    State(false, None, 0, Polling, map[])
  }

  function At(s: State, c: nat): Pc {
    if c in s.pcs then s.pcs[c] else Rest
  }

  function Goto(s: State, c: nat, pc: Pc): State {
    s.(pcs := s.pcs[c := pc])
  }

  // ---------------------------------------------------------------------------
  // Steps

  /** The action takes timer.lock. */
  predicate UsesTimer(pc: Pc) {
    pc.Arm? || pc.Disable? || pc.Resume? || pc.Rearm?
  }

  predicate Enabled(s: State, a: Action) {
    match a
    case Acquire(c) => At(s, c).Rest?
    case Append(c) => At(s, c).Rest?
    case Finish(c) => At(s, c).Rest?
    case Next(c) => !At(s, c).Rest? && (UsesTimer(At(s, c)) ==> s.timer.Polling?)
    case Fire => s.timer.Polling? && s.count == 1
    case Expire => s.timer.Expiring?
    case Free => s.timer.Clearing?
  }

  /** Where a handler goes when a pause fails, or when its work is done. */
  function After(why: Purpose): Pc {
    if why.Log? then CheckOwner(Release) else Rest
  }

  /** The next atomic action of client c. */
  function Run(s: State, c: nat): State {
    match At(s, c)
    case Rest => s
    case CheckNotOwner => Goto(s, c, if s.holder == Some(c) then Rest else Spin)
    case Spin => if s.flag then s else Goto(s.(flag := true), c, SetHolder)
    case SetHolder => Goto(s.(holder := Some(c)), c, Arm)
    case Arm => Goto(s.(count := s.count + 1), c, OpenTransaction)
    case OpenTransaction => Goto(s, c, Rest)
    case CheckOwner(why) => Goto(s, c, if s.holder == Some(c) then Disable(why) else After(why))
    case Disable(why) => Goto(s.(count := s.count - 1), c, Recheck(why))
    case Recheck(why) =>
      Goto(s, c, if s.holder != Some(c) then Resume(why) else if why.Release? then ClearHolder else Work(why))
    case Resume(why) => Goto(s.(count := s.count + 1), c, After(why))
    case Work(why) => Goto(s, c, CheckStillOwner(why))
    case CheckStillOwner(why) => Goto(s, c, if s.holder == Some(c) then Rearm(why) else After(why))
    case Rearm(why) => Goto(s.(count := s.count + 1), c, After(why))
    case ClearHolder => Goto(s.(holder := None), c, FreeFlag)
    case FreeFlag => Goto(s.(flag := false), c, Rest)
  }

  function Step(s: State, a: Action): State {
    match a
    case Acquire(c) => Goto(s, c, CheckNotOwner)
    case Append(c) => Goto(s, c, CheckOwner(Write))
    case Finish(c) => Goto(s, c, CheckOwner(Log))
    case Next(c) => Run(s, c)
    case Fire => s.(count := 0, timer := Expiring)
    case Expire => s.(holder := None, timer := Clearing)
    case Free => s.(flag := false, timer := Polling)
  }

  // ---------------------------------------------------------------------------
  // The invariant

  /** A pause has been counted and not yet been undone. */
  predicate IsPausing(pc: Pc) {
    pc.Recheck? || pc.Resume? || Guarded(pc)
  }

  /** The pause has succeeded. */
  predicate Guarded(pc: Pc) {
    pc.Work? || pc.CheckStillOwner? || pc.Rearm? || pc.ClearHolder?
  }

  function Pauses(s: State): set<nat> {
    set c | c in s.pcs && IsPausing(s.pcs[c])
  }

  /** Someone holds the lock, has started the timer for it, and the timer has not expired. */
  predicate Armed(s: State) {
    s.holder.Some? && !s.timer.Expiring? && !At(s, s.holder.value).Arm?
  }

  /** timer.state counts exactly: one for a holder whose timer runs, less the pauses. */
  predicate CountExact(s: State) {
    s.count == One(Armed(s)) - |Pauses(s)|
  }

  /** The client has set the flag without being the holder. */
  predicate OwnsFlag(pc: Pc) {
    pc.SetHolder? || pc.FreeFlag?
  }

  /** What the place of one client in its handler says about the lock. */
  predicate ClientOk(s: State, c: nat) {
    var pc := At(s, c);
    && (Guarded(pc) || pc.Arm? ==> s.holder == Some(c))
    && (pc.Spin? || pc.SetHolder? ==> s.holder != Some(c))
    && (IsPausing(pc) ==> s.timer.Polling?)
    && (OwnsFlag(pc) ==> s.flag && s.holder.None? && !s.timer.Clearing?)
  }

  ghost predicate ClientsOk(s: State) {
    forall c: nat :: ClientOk(s, c)
  }

  ghost predicate AtMostOneClientOwns(s: State) {
    forall c: nat, d: nat :: OwnsFlag(At(s, c)) && OwnsFlag(At(s, d)) ==> c == d
  }

  /** A set flag has an owner: the holder, the timer, or a client about to become or just past being holder. */
  ghost predicate FlagOwned(s: State) {
    s.flag ==> s.holder.Some? || s.timer.Clearing? || exists c: nat :: OwnsFlag(At(s, c))
  }

  predicate TimerOk(s: State) {
    && (s.timer.Expiring? ==> s.holder.Some? && !At(s, s.holder.value).Arm?)
    && (s.holder.Some? ==> s.flag && !s.timer.Clearing?)
    && (s.timer.Clearing? ==> s.flag)
  }

  ghost predicate Inv(s: State) {
    CountExact(s) && ClientsOk(s) && AtMostOneClientOwns(s) && FlagOwned(s) && TimerOk(s)
  }

  lemma GotoPauses(s: State, c: nat, pc: Pc)
    ensures Pauses(Goto(s, c, pc)) == if IsPausing(pc) then Pauses(s) + {c} else Pauses(s) - {c}
    ensures c in Pauses(s) <==> IsPausing(At(s, c))
    ensures |Pauses(Goto(s, c, pc))|
         == |Pauses(s)| + One(IsPausing(pc)) - One(IsPausing(At(s, c)))
  {
    assert Pauses(Goto(s, c, pc)) == if IsPausing(pc) then Pauses(s) + {c} else Pauses(s) - {c};
  }

  /** A running count of one means that nobody is pausing. */
  lemma FireMeansArmed(s: State)
    requires CountExact(s) && Enabled(s, Fire)
    ensures Armed(s) && forall c: nat :: !IsPausing(At(s, c))
  {
    assert |Pauses(s)| == 0;
    forall c: nat
      ensures !IsPausing(At(s, c))
    {
      assert c !in Pauses(s);
    }
  }

  lemma RunMoves(s: State, c: nat)
    requires !At(s, c).Rest?
    ensures Run(s, c).pcs == s.pcs[c := At(Run(s, c), c)]
    ensures forall d: nat :: d != c ==> At(Run(s, c), d) == At(s, d)
  {
  }

  function One(b: bool): int {
    if b then 1 else 0
  }

  lemma RunCounts(s: State, c: nat)
    requires ClientOk(s, c) && TimerOk(s) && Enabled(s, Next(c))
    ensures var t := Run(s, c);
      t.count - s.count == One(Armed(t)) - One(Armed(s)) - One(IsPausing(At(t, c))) + One(IsPausing(At(s, c)))
  {
    RunMoves(s, c);
  }

  lemma RunKeepsCount(s: State, c: nat)
    requires CountExact(s) && ClientOk(s, c) && TimerOk(s) && Enabled(s, Next(c))
    ensures CountExact(Run(s, c))
  {
    var pc := At(Run(s, c), c);
    RunCounts(s, c);
    RunMoves(s, c);
    GotoPauses(s, c, pc);
    assert Pauses(Run(s, c)) == Pauses(Goto(s, c, pc));
  }

  lemma RunKeepsClient(s: State, c: nat, d: nat)
    requires ClientOk(s, c) && ClientOk(s, d) && AtMostOneClientOwns(s) && TimerOk(s) && Enabled(s, Next(c))
    ensures ClientOk(Run(s, c), d)
  {
    RunMoves(s, c);
    assert d != c && OwnsFlag(At(s, d)) ==> !OwnsFlag(At(s, c));
  }

  lemma RunKeepsOwners(s: State, c: nat)
    requires ClientsOk(s) && AtMostOneClientOwns(s) && FlagOwned(s) && TimerOk(s) && Enabled(s, Next(c))
    ensures AtMostOneClientOwns(Run(s, c)) && FlagOwned(Run(s, c)) && TimerOk(Run(s, c))
  {
    var t := Run(s, c);
    RunMoves(s, c);
    assert ClientOk(s, c);
    forall d: nat | OwnsFlag(At(t, d)) && OwnsFlag(At(t, c))
      ensures d == c
    {
      assert ClientOk(s, d);
    }
    if t.flag && t.holder.None? && !t.timer.Clearing? && !OwnsFlag(At(t, c)) {
      var d: nat :| OwnsFlag(At(s, d));
      assert OwnsFlag(At(t, d));
    }
  }

  lemma RunKeeps(s: State, c: nat)
    requires Inv(s) && Enabled(s, Next(c))
    ensures Inv(Run(s, c))
  {
    assert ClientOk(s, c);
    RunKeepsCount(s, c);
    forall d: nat
      ensures ClientOk(Run(s, c), d)
    {
      assert ClientOk(s, d);
      RunKeepsClient(s, c, d);
    }
    RunKeepsOwners(s, c);
  }

  lemma CallKeeps(s: State, c: nat, pc: Pc)
    requires Inv(s) && At(s, c).Rest? && (pc.CheckNotOwner? || pc.CheckOwner?)
    ensures Inv(Goto(s, c, pc))
  {
    var t := Goto(s, c, pc);
    GotoPauses(s, c, pc);
    forall d: nat
      ensures ClientOk(t, d) && (OwnsFlag(At(t, d)) ==> OwnsFlag(At(s, d)))
    {
      assert ClientOk(s, d);
    }
    if t.flag && t.holder.None? && !t.timer.Clearing? {
      var d: nat :| OwnsFlag(At(s, d));
      assert OwnsFlag(At(t, d));
    }
  }

  lemma TimerKeeps(s: State, a: Action)
    requires Inv(s) && Enabled(s, a) && (a.Fire? || a.Expire? || a.Free?)
    ensures Inv(Step(s, a))
  {
    var t := Step(s, a);
    assert Pauses(t) == Pauses(s);
    if a.Fire? {
      FireMeansArmed(s);
    }
    forall d: nat
      ensures At(t, d) == At(s, d) && ClientOk(t, d)
    {
      assert ClientOk(s, d);
    }
  }

  lemma StepKeeps(s: State, a: Action)
    requires Inv(s) && Enabled(s, a)
    ensures Inv(Step(s, a))
  {
    match a
    case Acquire(c) => CallKeeps(s, c, CheckNotOwner);
    case Append(c) => CallKeeps(s, c, CheckOwner(Write));
    case Finish(c) => CallKeeps(s, c, CheckOwner(Log));
    case Next(c) => RunKeeps(s, c);
    case _ => TimerKeeps(s, a);
  }

  // ---------------------------------------------------------------------------
  // Every run

  predicate IsRun(states: seq<State>, actions: seq<Action>) {
    && |states| == |actions| + 1
    && states[0] == Start()
    && (forall n :: 0 <= n < |actions| ==> Enabled(states[n], actions[n]) && states[n + 1] == Step(states[n], actions[n]))
  }

  lemma {:induction false} RunKeepsInv(states: seq<State>, actions: seq<Action>, n: nat)
    requires IsRun(states, actions) && n < |states|
    ensures Inv(states[n])
  {
    if n == 0 {
      assert Pauses(Start()) == {};
      assert forall c: nat :: ClientOk(Start(), c);
    } else {
      RunKeepsInv(states, actions, n - 1);
      StepKeeps(states[n - 1], actions[n - 1]);
    }
  }

  /** timer.state is always one for an armed holder, less the outstanding pauses. */
  lemma TimerCountExact(states: seq<State>, actions: seq<Action>, n: nat)
    requires IsRun(states, actions) && n < |states|
    ensures states[n].count == One(Armed(states[n])) - |Pauses(states[n])|
  {
    RunKeepsInv(states, actions, n);
  }

  /** The client is the holder, or sets or clears the holder with the flag set. */
  predicate Owns(s: State, c: nat) {
    s.holder == Some(c) || OwnsFlag(At(s, c))
  }

  /** Mutual exclusion: the lock has at most one owner, and none while the timer takes it back. */
  lemma AtMostOneOwner(states: seq<State>, actions: seq<Action>, n: nat, c: nat, d: nat)
    requires IsRun(states, actions) && n < |states|
    requires Owns(states[n], c)
    ensures states[n].flag && !states[n].timer.Clearing?
    ensures Owns(states[n], d) ==> c == d
  {
    RunKeepsInv(states, actions, n);
    assert ClientOk(states[n], c) && ClientOk(states[n], d);
  }

  /** The flag is free exactly if nobody owns it: no owner is lost, none is left behind. */
  lemma FlagFreeIffUnowned(states: seq<State>, actions: seq<Action>, n: nat)
    requires IsRun(states, actions) && n < |states|
    ensures !states[n].flag <==> !states[n].timer.Clearing? && forall c: nat :: !Owns(states[n], c)
  {
    var s := states[n];
    RunKeepsInv(states, actions, n);
    if !s.flag {
      forall c: nat
        ensures !Owns(s, c)
      {
        assert ClientOk(s, c);
      }
    } else if s.holder.Some? {
      assert Owns(s, s.holder.value);
    } else if !s.timer.Clearing? {
      var c: nat :| OwnsFlag(At(s, c));
      assert Owns(s, c);
    }
  }

  /**
    What a successful pause guarantees until the handler re-arms the timer or
    clears the holder: the client holds the lock, the timer cannot fire, and no
    other client is past a successful pause.
  */
  lemma PauseGuards(states: seq<State>, actions: seq<Action>, n: nat, c: nat, d: nat)
    requires IsRun(states, actions) && n < |states| && Guarded(At(states[n], c))
    ensures states[n].holder == Some(c) && states[n].timer.Polling? && !Enabled(states[n], Fire)
    ensures Guarded(At(states[n], d)) ==> d == c
  {
    RunKeepsInv(states, actions, n);
    assert ClientOk(states[n], c) && ClientOk(states[n], d);
    GotoPauses(states[n], c, Rest);
    assert |Pauses(states[n])| >= |{c}|;
  }

  /** The timer never fires for a free lock, and the assertion of its handler holds. */
  lemma NoExpiryOfFreeLock(states: seq<State>, actions: seq<Action>, n: nat)
    requires IsRun(states, actions) && n < |states|
    ensures states[n].holder.None? ==> !Enabled(states[n], Fire)
    ensures Enabled(states[n], Expire) ==> states[n].holder.Some?
  {
    RunKeepsInv(states, actions, n);
  }

  /**
    Who changes the holder: a client sets it to itself and only when it is free;
    a client clears it only if it is its own; and the timer clears it only while
    no client is past a successful pause.
  */
  lemma HolderChanges(states: seq<State>, actions: seq<Action>, n: nat)
    requires IsRun(states, actions) && n < |actions| && states[n + 1].holder != states[n].holder
    ensures actions[n].Next? || actions[n].Expire?
    ensures actions[n].Next? ==>
      var c := actions[n].c;
      || (states[n].holder.None? && states[n + 1].holder == Some(c))
      || (states[n].holder == Some(c) && states[n + 1].holder.None? && At(states[n], c).ClearHolder?)
    ensures actions[n].Expire? ==>
      states[n + 1].holder.None? && forall c: nat :: !IsPausing(At(states[n], c))
  {
    var (s, a) := (states[n], actions[n]);
    RunKeepsInv(states, actions, n);
    if a.Next? {
      assert ClientOk(s, a.c);
    } else if a.Expire? {
      forall c: nat
        ensures !IsPausing(At(s, c))
      {
        assert ClientOk(s, c);
      }
    }
  }

  /** The owner check of reset_if_owner, and the swap that frees the flag, always succeed. */
  lemma SecondChecksSucceed(states: seq<State>, actions: seq<Action>, n: nat, c: nat)
    requires IsRun(states, actions) && n < |states|
    ensures At(states[n], c).CheckStillOwner? ==> states[n].holder == Some(c)
    ensures At(states[n], c).FreeFlag? || states[n].timer.Clearing? ==> states[n].flag
  {
    RunKeepsInv(states, actions, n);
    assert ClientOk(states[n], c);
  }

  // ---------------------------------------------------------------------------
  // The start of a transaction is not guarded

  /**
    At step k the timer takes the lock back from c, which is about to clear the
    transaction table and has not come further by moment n.
  */
  predicate ExpiredAt(states: seq<State>, actions: seq<Action>, k: nat, n: nat, c: nat) {
    && k < n <= |actions| < |states|
    && actions[k].Expire? && states[k].holder == Some(c)
    && (forall j :: k <= j <= n ==> At(states[j], c).OpenTransaction?)
  }

  /** c has just taken the lock, or was already opening its transaction one step ago. */
  lemma OpeningStep(s: State, a: Action, c: nat)
    requires Inv(s) && Enabled(s, a) && At(Step(s, a), c).OpenTransaction?
    ensures if At(s, c).OpenTransaction?
      then a != Next(c) && (Step(s, a).holder == Some(c) <==> s.holder == Some(c) && !a.Expire?)
      else s.holder == Some(c) && Step(s, a).holder == Some(c)
  {
    assert ClientOk(s, c);
    if a.Next? && a.c != c {
      assert ClientOk(s, a.c);
    }
  }

  /**
    A client opening its transaction no longer holds the lock if and only if the
    timer has taken it back since it came there.
  */
  lemma {:induction false} LostWhileOpeningIff(states: seq<State>, actions: seq<Action>, n: nat, c: nat)
    requires IsRun(states, actions) && n < |states| && At(states[n], c).OpenTransaction?
    ensures states[n].holder != Some(c) <==> exists k: nat :: ExpiredAt(states, actions, k, n, c)
    decreases n
  {
    var m := n - 1;
    var (s, a) := (states[m], actions[m]);
    RunKeepsInv(states, actions, m);
    OpeningStep(s, a, c);
    if At(s, c).OpenTransaction? {
      LostWhileOpeningIff(states, actions, m, c);
      if k: nat :| ExpiredAt(states, actions, k, m, c) {
        assert ExpiredAt(states, actions, k, n, c);
      } else if a.Expire? && s.holder == Some(c) {
        assert ExpiredAt(states, actions, m, n, c);
      } else if k: nat :| ExpiredAt(states, actions, k, n, c) {
        assert k < m ==> ExpiredAt(states, actions, k, m, c);
      }
    }
  }

  /** The client is at the transaction table: to clear it, to write to it or to log it. */
  predicate AtTable(s: State, c: nat) {
    At(s, c).OpenTransaction? || At(s, c).Work?
  }

  /** Two clients are at the table together only after such an expiry of one of them. */
  lemma TogetherOnlyAfterExpiry(states: seq<State>, actions: seq<Action>, n: nat, c: nat, d: nat)
    requires IsRun(states, actions) && n < |states| && c != d && AtTable(states[n], c) && AtTable(states[n], d)
    ensures exists k: nat :: ExpiredAt(states, actions, k, n, c) || ExpiredAt(states, actions, k, n, d)
  {
    var s := states[n];
    RunKeepsInv(states, actions, n);
    assert ClientOk(s, c) && ClientOk(s, d);
    if s.holder != Some(c) {
      LostWhileOpeningIff(states, actions, n, c);
      var k: nat :| ExpiredAt(states, actions, k, n, c);
    } else {
      LostWhileOpeningIff(states, actions, n, d);
      var k: nat :| ExpiredAt(states, actions, k, n, d);
    }
  }

  // ---------------------------------------------------------------------------
  // Every such expiry can end in an overlap

  /** The run goes on. */
  predicate GoesOn(states: seq<State>, actions: seq<Action>, more: seq<State>, acts: seq<Action>) {
    IsRun(states, actions) && IsRun(more, acts) && states <= more && actions <= acts
  }

  function Last(states: seq<State>): State
    requires |states| > 0
  {
    states[|states| - 1]
  }

  lemma Extend(states: seq<State>, actions: seq<Action>, a: Action) returns (more: seq<State>, acts: seq<Action>)
    requires IsRun(states, actions) && Enabled(Last(states), a)
    ensures GoesOn(states, actions, more, acts) && Last(more) == Step(Last(states), a)
  {
    more, acts := states + [Step(Last(states), a)], actions + [a];
  }

  /** The timer thread comes back to its polling. */
  lemma TimerPolls(states: seq<State>, actions: seq<Action>) returns (more: seq<State>, acts: seq<Action>)
    requires IsRun(states, actions)
    ensures GoesOn(states, actions, more, acts) && Last(more).timer.Polling? && Last(more).pcs == Last(states).pcs
    ensures Last(more).holder == Last(states).holder || Last(more).holder.None?
  {
    more, acts := states, actions;
    if Last(more).timer.Expiring? {
      more, acts := Extend(more, acts, Expire);
    }
    if Last(more).timer.Clearing? {
      more, acts := Extend(more, acts, Free);
    }
  }

  /** How many actions a client that owns the lock has before it at most. */
  function ToGo(pc: Pc): nat {
    match pc
    case Rest => 0
    case CheckNotOwner => 1
    case Spin => 4
    case SetHolder => 3
    case Arm => 2
    case OpenTransaction => 1
    case FreeFlag => 1
    case ClearHolder => 2
    case CheckOwner(why) => 6 + Sequel(why)
    case Disable(why) => 5 + Sequel(why)
    case Recheck(why) => 4 + Sequel(why)
    case Work(why) => 3 + Sequel(why)
    case CheckStillOwner(why) => 2 + Sequel(why)
    case Rearm(why) => 1 + Sequel(why)
    case Resume(why) => 1 + Sequel(why)
  }

  /** What follows the part with this purpose. */
  function Sequel(why: Purpose): nat {
    if why.Log? then 6 else 0
  }

  /** The client owns the lock, or has just freed it. */
  predicate OwnsOrFreed(s: State, e: nat) {
    Owns(s, e) || (At(s, e).Rest? && !s.flag && s.holder.None?)
  }

  lemma OwnerMoves(s: State, e: nat)
    requires Inv(s) && Owns(s, e) && s.timer.Polling? && !At(s, e).Rest?
    ensures Enabled(s, Next(e)) && ToGo(At(Run(s, e), e)) < ToGo(At(s, e))
    ensures OwnsOrFreed(Run(s, e), e) && Run(s, e).timer.Polling?
    ensures forall c: nat :: c != e ==> At(Run(s, e), c) == At(s, c)
  {
    assert ClientOk(s, e);
    RunMoves(s, e);
  }

  /** A client that owns the lock comes to rest, with the lock or having freed it; nobody else moves. */
  lemma OwnerRests(states: seq<State>, actions: seq<Action>, e: nat) returns (more: seq<State>, acts: seq<Action>)
    requires IsRun(states, actions) && OwnsOrFreed(Last(states), e) && Last(states).timer.Polling?
    ensures GoesOn(states, actions, more, acts) && Last(more).timer.Polling?
    ensures OwnsOrFreed(Last(more), e) && At(Last(more), e).Rest?
    ensures forall c: nat :: c != e ==> At(Last(more), c) == At(Last(states), c)
    decreases ToGo(At(Last(states), e))
  {
    if At(Last(states), e).Rest? {
      more, acts := states, actions;
    } else {
      RunKeepsInv(states, actions, |states| - 1);
      OwnerMoves(Last(states), e);
      more, acts := Extend(states, actions, Next(e));
      more, acts := OwnerRests(more, acts, e);
    }
  }

  /** A resting holder comes to the table to write. */
  lemma HolderWrites(states: seq<State>, actions: seq<Action>, e: nat) returns (more: seq<State>, acts: seq<Action>)
    requires IsRun(states, actions) && Last(states).timer.Polling?
    requires Last(states).holder == Some(e) && At(Last(states), e).Rest?
    ensures GoesOn(states, actions, more, acts) && At(Last(more), e) == Work(Write)
    ensures forall c: nat :: c != e ==> At(Last(more), c) == At(Last(states), c)
  {
    more, acts := Extend(states, actions, Append(e));
    more, acts := Extend(more, acts, Next(e));
    more, acts := Extend(more, acts, Next(e));
    more, acts := Extend(more, acts, Next(e));
  }

  /** A resting client takes a free lock and rests again. */
  lemma TakesLock(states: seq<State>, actions: seq<Action>, e: nat) returns (more: seq<State>, acts: seq<Action>)
    requires IsRun(states, actions) && Last(states).timer.Polling?
    requires !Last(states).flag && Last(states).holder.None? && At(Last(states), e).Rest?
    ensures GoesOn(states, actions, more, acts) && Last(more).timer.Polling?
    ensures Last(more).holder == Some(e) && At(Last(more), e).Rest?
    ensures forall c: nat :: c != e ==> At(Last(more), c) == At(Last(states), c)
  {
    more, acts := Extend(states, actions, Acquire(e));
    more, acts := Extend(more, acts, Next(e));
    more, acts := Extend(more, acts, Next(e));
    more, acts := Extend(more, acts, Next(e));
    more, acts := Extend(more, acts, Next(e));
    more, acts := Extend(more, acts, Next(e));
  }

  lemma FreshClient(clients: set<nat>) returns (e: nat)
    ensures forall c :: c in clients ==> c < e
    decreases clients
  {
    if clients == {} {
      e := 0;
    } else {
      var c :| c in clients;
      var d := FreshClient(clients - {c});
      e := if c < d then d else c + 1;
      assert forall x :: x in clients ==> x == c || x in clients - {c};
    }
  }

  /** The lock becomes free, or rests with a client other than c. */
  lemma LockSettles(states: seq<State>, actions: seq<Action>, c: nat)
    returns (more: seq<State>, acts: seq<Action>)
    requires IsRun(states, actions) && Last(states).timer.Polling?
    requires At(Last(states), c).OpenTransaction? && Last(states).holder != Some(c)
    ensures GoesOn(states, actions, more, acts) && Last(more).timer.Polling? && At(Last(more), c).OpenTransaction?
    ensures if Last(more).holder.Some?
      then Last(more).holder.value != c && At(Last(more), Last(more).holder.value).Rest?
      else !Last(more).flag
  {
    var s := Last(states);
    RunKeepsInv(states, actions, |states| - 1);
    if s.holder.Some? {
      more, acts := OwnerRests(states, actions, s.holder.value);
    } else if s.flag {
      var e: nat :| OwnsFlag(At(s, e));
      more, acts := OwnerRests(states, actions, e);
    } else {
      more, acts := states, actions;
    }
    RunKeepsInv(more, acts, |more| - 1);
  }

  /**
    handle_lock_acquire clears the transaction table without pausing the timer.
    Whenever the lock of a client that is about to do so has expired, the run can
    go on to where another client writes to the table while the first has still
    to clear it.
  */
  lemma ExpiredOpeningOverlaps(states: seq<State>, actions: seq<Action>, c: nat)
    returns (more: seq<State>, acts: seq<Action>, d: nat)
    requires IsRun(states, actions) && At(Last(states), c).OpenTransaction? && Last(states).holder != Some(c)
    ensures GoesOn(states, actions, more, acts)
    ensures d != c && At(Last(more), c).OpenTransaction? && At(Last(more), d) == Work(Write)
  {
    more, acts := TimerPolls(states, actions);
    more, acts := LockSettles(more, acts, c);
    if Last(more).holder.Some? {
      d := Last(more).holder.value;
    } else {
      d := FreshClient(Last(more).pcs.Keys);
      more, acts := TakesLock(more, acts, d);
    }
    more, acts := HolderWrites(more, acts, d);
  }

  /** There is such a run. */
  lemma OpeningOverlaps() returns (states: seq<State>, actions: seq<Action>, d: nat)
    ensures IsRun(states, actions)
    ensures d != 0 && At(Last(states), 0).OpenTransaction? && At(Last(states), d) == Work(Write)
  {
    states, actions := [Start()], [];
    states, actions := Extend(states, actions, Acquire(0));
    states, actions := Extend(states, actions, Next(0));
    states, actions := Extend(states, actions, Next(0));
    states, actions := Extend(states, actions, Next(0));
    states, actions := Extend(states, actions, Next(0));
    states, actions := Extend(states, actions, Fire);
    states, actions := Extend(states, actions, Expire);
    states, actions, d := ExpiredOpeningOverlaps(states, actions, 0);
  }
}
