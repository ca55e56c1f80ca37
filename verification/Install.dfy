/**
  The receiving end of a snapshot stream: Raft_handle_install_snapshot_request
  with its effects on the follower's directories (raft_follower.c:72-130).
*/
module Install {
  import opened RaftTypes
  import opened ServerSpec
  import opened Files
  import opened Chunks
  import opened HandlerLaws

  /** A follower with its directories; the main files are those of MAIN. */
  datatype Receiver = Receiver(s: Server, dirs: map<int, Dir>) {
    function DirOf(id: int): Dir {
      if id in dirs then dirs[id] else map[]
    }
  }

  /** A snapshot on its way: everything below position id, as the leader of `term` holds it in `source`. */
  datatype Stream = Stream(term: int, id: nat, source: Dir, history: seq<Entry>) {
    function Pieces(): seq<FileWrite> {
      DirChunks(source, 0)
    }
  }

  /** The source is a snapshot: only managed files, no NUL, and the replay of all that it stands for. */
  ghost predicate IsSnapshot(t: Stream) {
    && |t.history| == t.id
    && t.source.Keys <= Managed()
    && (forall name :: name in t.source ==> NulFree(t.source[name]))
    && (forall name :: name in Managed() ==> Text(t.source, name) == Text(ReplayFirst(t.history, t.id), name))
  }

  /** The requests that Raft_send_snapshot ever sends for the stream. */
  predicate Genuine(t: Stream, m: InstallRequest) {
    && m.term == t.term && m.snapshotId == t.id
    && (m.done ==> m.index == |t.Pieces()|)
    && (!m.done ==> 0 <= m.index < |t.Pieces()| && FileWrite(m.name, m.text) == t.Pieces()[m.index])
  }

  // ---------------------------------------------------------------------------
  // The handler

  /** Raft_convert_to_follower also removes the directory of an unfinished stream. */
  function Converted(x: Receiver, term: int): Receiver {
    if x.s.term < term then
      Receiver(ConvertToFollower(x.s, term), if x.s.installId != -1 then x.dirs - {x.s.installId} else x.dirs)
    else x
  }

  /** What an accepted request does to the directories; the outdated snapshot goes last. */
  function Filed(x: Receiver, m: InstallRequest): map<int, Dir> {
    if m.done then
      var copied := x.dirs[MAIN := Copy(x.DirOf(m.snapshotId), x.DirOf(MAIN), Managed())];
      if x.s.start != 0 then copied - {x.s.start} else copied
    else
      x.dirs[m.snapshotId := Append(x.DirOf(m.snapshotId), FileWrite(m.name, CString(m.text)))]
  }

  function Handle(x: Receiver, m: InstallRequest): Receiver
    requires x.s.Shaped() && m.snapshotId >= 0
  {
    var y := Converted(x, m.term);
    Receiver(HandleInstallRequest(x.s, m).0, if InstallAccepted(y.s, m) then Filed(y, m) else y.dirs)
  }

  predicate Accepts(x: Receiver, m: InstallRequest) {
    InstallAccepted(Converted(x, m.term).s, m)
  }

  // ---------------------------------------------------------------------------
  // Receiving one stream

  /**
    A request of the stream arrives, or another handler changes the log, the
    commit index or the main files.
  */
  datatype Action = Deliver(m: InstallRequest) | Local(s: Server, main: Dir)

  ghost predicate MainCurrent(x: Receiver, t: Stream) {
    && 0 <= x.s.commit + 1 <= |t.history|
    && (forall name :: name in Managed() ==>
          Text(x.DirOf(MAIN), name) == Text(ReplayFirst(t.history, x.s.commit + 1), name))
  }

  /** The follower has no part of the stream, or only one that its next term change removes. */
  ghost predicate Ready(x: Receiver, t: Stream) {
    && x.s.Shaped() && MainCurrent(x, t) && x.s.start < t.id
    && (x.s.installId == -1 ==> x.s.installIndex == -1)
    && (if x.s.term < t.term then t.id !in x.dirs || x.s.installId == t.id
        else x.s.term == t.term && x.s.installId == -1 && t.id !in x.dirs)
  }

  ghost predicate Enabled(x: Receiver, t: Stream, a: Action) {
    match a
    case Deliver(m) => Genuine(t, m)
    case Local(s, main) =>
      && s.Shaped()
      && s.term == x.s.term && s.start == x.s.start
      && s.installId == x.s.installId && s.installIndex == x.s.installIndex
      && MainCurrent(Receiver(s, x.dirs[MAIN := main]), t)
  }

  function Step(x: Receiver, a: Action): Receiver
    requires x.s.Shaped() && (a.Deliver? ==> a.m.snapshotId >= 0)
  {
    match a
    case Deliver(m) => Handle(x, m)
    case Local(s, main) => Receiver(s, x.dirs[MAIN := main])
  }

  /** The chunks 0 .. installIndex, and nothing else, are staged. */
  ghost predicate Staged(x: Receiver, t: Stream) {
    && -1 <= x.s.installIndex < |t.Pieces()|
    && (x.s.installId == -1 <==> x.s.installIndex == -1)
    && (x.s.installId != -1 ==> x.s.installId == t.id)
    && x.DirOf(t.id) == AppendAll(map[], Printed(t.Pieces()[..x.s.installIndex + 1]))
  }

  ghost predicate Receiving(x: Receiver, t: Stream) {
    x.s.Shaped() && x.s.term == t.term && x.s.start < t.id && MainCurrent(x, t) && Staged(x, t)
  }

  /** The stream has come to its end: the follower stands where the snapshot stands. */
  ghost predicate Installed(x: Receiver, t: Stream) {
    && x.s.start == t.id > 0 && x.s.log == [] && x.s.commit == t.id - 1 && !x.s.snapshotInProgress
    && x.s.term == t.term && x.s.installId == x.s.installIndex == -1
    && x.DirOf(t.id) == t.source
    && |t.history| == t.id
    && (forall name :: name in Managed() ==> Text(x.DirOf(MAIN), name) == Text(ReplayFirst(t.history, t.id), name))
  }

  lemma PrintedSnoc(ws: seq<FileWrite>, k: nat)
    requires k < |ws|
    ensures Printed(ws[..k + 1]) == Printed(ws[..k]) + [FileWrite(ws[k].name, CString(ws[k].text))]
  {
  }

  lemma ConvertedReceives(x: Receiver, t: Stream)
    requires Ready(x, t)
    ensures Receiving(Converted(x, t.term), t)
  {
    assert Printed(t.Pieces()[..0]) == [];
  }

  lemma OneMoreChunk(ws: seq<FileWrite>, k: nat)
    requires k < |ws|
    ensures AppendAll(map[], Printed(ws[..k + 1]))
         == Append(AppendAll(map[], Printed(ws[..k])), FileWrite(ws[k].name, CString(ws[k].text)))
  {
    PrintedSnoc(ws, k);
    AppendAllSnoc(map[], Printed(ws[..k]), FileWrite(ws[k].name, CString(ws[k].text)));
  }

  lemma ChunkStaged(x: Receiver, y: Receiver, t: Stream, m: InstallRequest)
    requires x.s.Shaped() && Staged(x, t) && Genuine(t, m) && !m.done && x.s.term == t.term && Accepts(x, m)
    requires y == Handle(x, m)
    ensures Staged(y, t)
  {
    OneMoreChunk(t.Pieces(), m.index);
    assert y.DirOf(t.id) == Append(x.DirOf(t.id), FileWrite(m.name, CString(m.text)));
  }

  lemma ChunkKeeps(x: Receiver, y: Receiver, t: Stream, m: InstallRequest)
    requires Receiving(x, t) && Genuine(t, m) && !m.done && y == Handle(x, m)
    ensures Receiving(y, t)
  {
    if Accepts(x, m) {
      ChunkStaged(x, y, t, m);
      assert y.DirOf(MAIN) == x.DirOf(MAIN);
    } else {
      assert y == x;
    }
  }

  /** `done` is accepted only when all chunks are staged. */
  lemma DoneMeansAllStaged(x: Receiver, t: Stream, m: InstallRequest)
    requires IsSnapshot(t) && Receiving(x, t) && Genuine(t, m) && m.done && Accepts(x, m)
    ensures x.s.installIndex + 1 == |t.Pieces()|
    ensures x.DirOf(t.id) == t.source
  {
    assert t.Pieces()[..|t.Pieces()|] == t.Pieces();
    SplitReassemble(t.source);
  }

  lemma DoneFiles(x: Receiver, t: Stream, m: InstallRequest)
    requires m.done && m.snapshotId == t.id && x.s.start < t.id && x.DirOf(t.id) == t.source
    ensures var y := Receiver(x.s, Filed(x, m));
      y.DirOf(t.id) == t.source && y.DirOf(MAIN) == Copy(t.source, x.DirOf(MAIN), Managed())
  {
  }

  lemma DoneInstalls(x: Receiver, t: Stream, m: InstallRequest)
    requires IsSnapshot(t) && Receiving(x, t) && Genuine(t, m) && m.done && Accepts(x, m)
    ensures Installed(Handle(x, m), t)
  {
    DoneMeansAllStaged(x, t, m);
    DoneFiles(x, t, m);
    assert Handle(x, m).dirs == Filed(x, m);
    CopyOverPrefix(x.DirOf(MAIN), t.source, t.history, x.s.commit + 1, t.id, Managed());
  }

  lemma StepKeeps(x: Receiver, t: Stream, a: Action)
    requires IsSnapshot(t) && Receiving(x, t) && Enabled(x, t, a)
    ensures if a.Deliver? && a.m.done && Accepts(x, a.m) then Installed(Step(x, a), t) else Receiving(Step(x, a), t)
  {
    match a
    case Deliver(m) =>
      if !m.done {
        ChunkKeeps(x, Handle(x, m), t, m);
      } else if Accepts(x, m) {
        DoneInstalls(x, t, m);
      }
    case Local(s, main) =>
  }

  // ---------------------------------------------------------------------------
  // Any stream of requests: lost, duplicated, reordered

  ghost predicate IsRun(t: Stream, states: seq<Receiver>, actions: seq<Action>) {
    && |states| == |actions| + 1
    && Ready(states[0], t)
    && (forall n :: 0 <= n < |states| ==> states[n].s.Shaped())
    && (forall n :: 0 <= n < |actions| ==>
          Enabled(states[n], t, actions[n]) && states[n + 1] == Step(states[n], actions[n]))
  }

  predicate Finishes(x: Receiver, a: Action) {
    a.Deliver? && a.m.done && Accepts(x, a.m)
  }

  /** No `done` has been accepted in the first n steps. */
  predicate Unfinished(states: seq<Receiver>, actions: seq<Action>, n: nat)
    requires n <= |actions| <= |states|
  {
    forall k :: 0 <= k < n ==> !Finishes(states[k], actions[k])
  }

  /** Up to the first accepted `done`, a follower is ready for the stream or receives it. */
  lemma {:induction false} StagingHolds(t: Stream, states: seq<Receiver>, actions: seq<Action>, n: nat)
    requires IsSnapshot(t) && IsRun(t, states, actions) && n <= |actions| && Unfinished(states, actions, n)
    ensures Ready(states[n], t) || Receiving(states[n], t)
  {
    if n > 0 {
      StagingHolds(t, states, actions, n - 1);
      FirstStep(states[n - 1], t, actions[n - 1]);
    }
  }

  /** Ready or receiving, a follower takes one step. */
  lemma FirstStep(x: Receiver, t: Stream, a: Action)
    requires IsSnapshot(t) && x.s.Shaped() && Enabled(x, t, a) && (Ready(x, t) || Receiving(x, t))
    ensures if Finishes(x, a) then Installed(Step(x, a), t) else Ready(Step(x, a), t) || Receiving(Step(x, a), t)
  {
    if a.Deliver? {
      var y := Converted(x, t.term);
      if Ready(x, t) {
        ConvertedReceives(x, t);
      }
      assert Handle(x, a.m) == Handle(y, a.m);
      StepKeeps(y, t, a);
    } else if Receiving(x, t) {
      StepKeeps(x, t, a);
    }
  }

  /**
    The first accepted `done` of the stream: all chunks were staged, the
    snapshot directory equals the leader's, and so do the main files.
  */
  lemma InstallStream(t: Stream, states: seq<Receiver>, actions: seq<Action>, n: nat)
    requires IsSnapshot(t) && IsRun(t, states, actions) && n < |actions|
    requires Unfinished(states, actions, n) && Finishes(states[n], actions[n])
    ensures Installed(states[n + 1], t)
  {
    StagingHolds(t, states, actions, n);
    FirstStep(states[n], t, actions[n]);
  }

  /** The accepted `done` removes the directory of the snapshot that the window began with, and leaves all others. */
  lemma InstallTidies(t: Stream, states: seq<Receiver>, actions: seq<Action>, n: nat, id: int)
    requires IsSnapshot(t) && IsRun(t, states, actions) && n < |actions|
    requires Unfinished(states, actions, n) && Finishes(states[n], actions[n]) && id != MAIN
    ensures var (x, y) := (Converted(states[n], t.term), states[n + 1]);
      && (id in y.dirs <==> id in x.dirs && (id == 0 || id != x.s.start))
      && (id in y.dirs ==> y.dirs[id] == x.dirs[id])
  {
  }

  // ---------------------------------------------------------------------------
  // What is answered

  /** The reply to a request. */
  function AnswerTo(x: Receiver, m: InstallRequest): Reply
    requires x.s.Shaped() && m.snapshotId >= 0
  {
    HandleInstallRequest(x.s, m).1
  }

  /** The answer is 1 exactly for the request that is awaited; any other changes only what its term changes. */
  lemma AnswerLaw(x: Receiver, m: InstallRequest)
    requires x.s.Shaped() && m.snapshotId >= 0
    ensures var (u, r) := (Heard(x.s, m.term), AnswerTo(x, m));
      && r.from == x.s.id && r.to == m.leader && r.term == u.term && r.requestId == m.requestId
      && (r.success == 1 <==> Awaits(u, m)) && (r.success == 0 <==> !Awaits(u, m))
      && (Accepts(x, m) <==> Awaits(u, m))
      && (r.success == 0 ==> Handle(x, m) == Converted(x, m.term))
  {
    InstallLaw(x.s, m);
  }

  /**
    Up to the first accepted `done`, the answers tell the truth: a `done` is
    answered 1 if and only if the snapshot is then installed, and a chunk if and
    only if it is then the last one that is staged and was not before.
  */
  lemma AnswersTellTheTruth(t: Stream, states: seq<Receiver>, actions: seq<Action>, n: nat)
    requires IsSnapshot(t) && IsRun(t, states, actions) && n < |actions| && Unfinished(states, actions, n)
    requires actions[n].Deliver?
    ensures var (x, y, m) := (states[n], states[n + 1], actions[n].m);
      var r := AnswerTo(x, m);
      && r.requestId == m.requestId && r.term == y.s.term && r.success in {0, 1}
      && (m.done ==> (r.success == 1 <==> Installed(y, t)))
      && (!m.done ==> (r.success == 1 <==> y.s.installIndex == m.index && Heard(x.s, t.term).installIndex != m.index))
      && (r.success == 0 ==> y == Converted(x, t.term))
  {
    var (x, m) := (states[n], actions[n].m);
    StagingHolds(t, states, actions, n);
    FirstStep(x, t, actions[n]);
    AnswerLaw(x, m);
    InstallLaw(x.s, m);
  }

  // ---------------------------------------------------------------------------
  // Afterwards: the directory is the live snapshot

  /**
    What can happen to the follower while its window begins at the snapshot: a
    late request of the stream, a chunk of another stream, a newer term that it
    hears of, a restart, or another handler.
  */
  datatype LateAction =
    | Late(m: InstallRequest)
    | Newer(term: int)
    | Restart(s: Server, main: Dir)
    | Other(s: Server, main: Dir)

  predicate LateEnabled(x: Receiver, t: Stream, a: LateAction) {
    match a
    case Late(m) => Genuine(t, m) || (m.snapshotId >= 0 && m.snapshotId != t.id && !m.done)
    case Newer(term) => true
    case Restart(s, main) =>
      s.Shaped() && s.term == x.s.term && s.start == x.s.start && s.installId == s.installIndex == -1
    case Other(s, main) =>
      && s.Shaped() && s.term == x.s.term && s.start == x.s.start
      && s.installId == x.s.installId && s.installIndex == x.s.installIndex
  }

  /** The last loop of Raft_server_restore: the directories with ids below 100 go, but for the window's. */
  function Swept(dirs: map<int, Dir>, keep: int): map<int, Dir> {
    map id | id in dirs && (id == MAIN || id >= 100 || id == keep) :: dirs[id]
  }

  function LateStep(x: Receiver, a: LateAction): (y: Receiver)
    requires x.s.Shaped() && (a.Late? ==> a.m.snapshotId >= 0)
  {
    match a
    case Late(m) => Handle(x, m)
    case Newer(term) => Converted(x, term)
    case Restart(s, main) => Receiver(s, Swept(x.dirs, s.start)[MAIN := main])
    case Other(s, main) => Receiver(s, x.dirs[MAIN := main])
  }

  /** The follower hears of a newer term. */
  predicate Raises(x: Receiver, a: LateAction) {
    (a.Newer? && a.term > x.s.term) || (a.Late? && a.m.term > x.s.term)
  }

  /** A chunk or `done` of the stream is accepted once more. */
  predicate Repeats(x: Receiver, t: Stream, a: LateAction) {
    a.Late? && Genuine(t, a.m) && Accepts(x, a.m)
  }

  /** The first chunk of the stream is accepted once more. */
  predicate Reopens(x: Receiver, t: Stream, a: LateAction) {
    Repeats(x, t, a) && !a.m.done && a.m.index == 0
  }

  /** What ends a stream that is under way. */
  predicate Ends(x: Receiver, t: Stream, a: LateAction) {
    Raises(x, a) || a.Restart? || (Repeats(x, t, a) && a.m.done)
  }

  /** An accepted chunk has text. */
  predicate AddsText(x: Receiver, t: Stream, a: LateAction) {
    Repeats(x, t, a) && !a.m.done && CString(a.m.text) != ""
  }

  /** The stream is under way again. */
  predicate Reopened(x: Receiver, t: Stream) {
    x.s.installId == t.id
  }

  /** What ends a stream that is under way again, other than a restart, removes the live snapshot. */
  predicate Harms(x: Receiver, t: Stream, a: LateAction) {
    AddsText(x, t, a) || (Reopened(x, t) && (Raises(x, a) || (Repeats(x, t, a) && a.m.done)))
  }

  /** The window begins at the snapshot of the stream. */
  ghost predicate Live(x: Receiver, t: Stream) {
    && IsSnapshot(t) && x.s.Shaped() && x.s.start == t.id > 0 && x.s.term >= t.term
    && x.s.installIndex >= -1 && (x.s.installId == -1 <==> x.s.installIndex == -1)
    && (Reopened(x, t) ==> |t.Pieces()| > 0)
  }

  predicate Intact(x: Receiver, t: Stream) {
    x.DirOf(t.id) == t.source
  }

  lemma PiecesOfFiles(t: Stream, k: nat)
    requires k < |t.Pieces()|
    ensures t.Pieces()[k].name in t.source
  {
    DirChunkNames(t.source, 0, k);
  }

  /** Text that is appended to a file changes the directory, and no text does not. */
  lemma AppendKeepsIff(d: Dir, name: string, text: string)
    requires name in d
    ensures Append(d, FileWrite(name, text)) == d <==> text == ""
  {
    assert |d[name] + text| == |d[name]| + |text|;
    if text == "" {
      assert d[name] + "" == d[name];
    } else {
      assert Append(d, FileWrite(name, text))[name] != d[name];
    }
  }

  lemma RepeatKeeps(x: Receiver, y: Receiver, t: Stream, m: InstallRequest)
    requires Live(x, t) && Genuine(t, m) && Accepts(x, m) && y == Handle(x, m)
    ensures Live(y, t)
    ensures Reopened(y, t) <==> !m.done
    ensures !m.done ==> (m.index == 0 <==> !Reopened(x, t))
    ensures Intact(x, t) ==> (Intact(y, t) <==> !Harms(x, t, Late(m)))
  {
    assert Converted(x, m.term) == x;
    if !m.done {
      PiecesOfFiles(t, m.index);
      if Intact(x, t) {
        AppendKeepsIff(t.source, m.name, CString(m.text));
      }
    } else {
      if |t.Pieces()| > 0 {
        PiecesOfFiles(t, 0);
      } else {
        SplitReassemble(t.source);
        assert Printed(t.Pieces()) == [];
      }
    }
  }

  /** Every other step: the stream is not opened again, and only a newer term can harm. */
  lemma OthersKeep(x: Receiver, y: Receiver, t: Stream, a: LateAction)
    requires Live(x, t) && LateEnabled(x, t, a) && !Repeats(x, t, a) && y == LateStep(x, a)
    ensures Live(y, t)
    ensures Reopened(y, t) <==> Reopened(x, t) && !Ends(x, t, a)
    ensures Intact(x, t) ==> (Intact(y, t) <==> !Harms(x, t, a))
  {
    if Reopened(x, t) {
      PiecesOfFiles(t, 0);
    }
  }

  lemma LateStepKeeps(x: Receiver, y: Receiver, t: Stream, a: LateAction)
    requires Live(x, t) && LateEnabled(x, t, a) && y == LateStep(x, a)
    ensures Live(y, t)
    ensures Reopened(y, t) <==> Reopens(x, t, a) || (Reopened(x, t) && !Ends(x, t, a))
    ensures Reopens(x, t, a) ==> !Reopened(x, t)
    ensures AddsText(x, t, a) ==> Reopens(x, t, a) || Reopened(x, t)
    ensures Intact(x, t) ==> (Intact(y, t) <==> !Harms(x, t, a))
  {
    if Repeats(x, t, a) {
      RepeatKeeps(x, y, t, a.m);
    } else {
      OthersKeep(x, y, t, a);
    }
  }

  /** A run that begins with the first accepted `done`. */
  ghost predicate IsLateRun(t: Stream, states: seq<Receiver>, actions: seq<LateAction>) {
    && |states| == |actions| + 1
    && IsSnapshot(t) && Installed(states[0], t)
    && (forall n :: 0 <= n < |states| ==> states[n].s.Shaped())
    && (forall n :: 0 <= n < |actions| ==>
          LateEnabled(states[n], t, actions[n]) && states[n + 1] == LateStep(states[n], actions[n]))
  }

  /** The first chunk is accepted again at step j, and the stream has not ended before moment k. */
  predicate ReopenedAt(t: Stream, states: seq<Receiver>, actions: seq<LateAction>, j: nat, k: nat)
    requires k <= |actions| <= |states|
  {
    j < k && Reopens(states[j], t, actions[j]) && forall i :: j < i < k ==> !Ends(states[i], t, actions[i])
  }

  ghost predicate SomewhereReopened(t: Stream, states: seq<Receiver>, actions: seq<LateAction>, n: nat)
    requires n <= |actions| <= |states|
  {
    exists j: nat :: ReopenedAt(t, states, actions, j, n)
  }

  lemma ReopenedNext(t: Stream, states: seq<Receiver>, actions: seq<LateAction>, m: nat, n: nat)
    requires n == m + 1 <= |actions| <= |states|
    ensures SomewhereReopened(t, states, actions, n)
       <==> || Reopens(states[m], t, actions[m])
            || (SomewhereReopened(t, states, actions, m) && !Ends(states[m], t, actions[m]))
  {
    if Reopens(states[m], t, actions[m]) {
      assert ReopenedAt(t, states, actions, m, n);
    } else if SomewhereReopened(t, states, actions, m) && !Ends(states[m], t, actions[m]) {
      var j: nat :| ReopenedAt(t, states, actions, j, m);
      assert ReopenedAt(t, states, actions, j, n);
    }
    if SomewhereReopened(t, states, actions, n) {
      var j: nat :| ReopenedAt(t, states, actions, j, n);
      assert j < m ==> ReopenedAt(t, states, actions, j, m) && !Ends(states[m], t, actions[m]);
    }
  }

  lemma StartsLive(x: Receiver, t: Stream)
    requires IsSnapshot(t) && x.s.Shaped() && Installed(x, t)
    ensures Live(x, t) && Intact(x, t) && !Reopened(x, t)
  {
  }

  /** The stream is under way again exactly if its first chunk has come again, and nothing has ended it since. */
  lemma {:induction false} ReopenedIff(t: Stream, states: seq<Receiver>, actions: seq<LateAction>, n: nat)
    requires IsLateRun(t, states, actions) && n < |states|
    ensures Live(states[n], t)
    ensures Reopened(states[n], t) <==> SomewhereReopened(t, states, actions, n)
  {
    if n == 0 {
      StartsLive(states[0], t);
    } else {
      ReopenedIff(t, states, actions, n - 1);
      LateStepKeeps(states[n - 1], states[n], t, actions[n - 1]);
      ReopenedNext(t, states, actions, n - 1, n);
    }
  }

  /** Step k harms what the first chunk, accepted again at step j, has opened: see LateRequestsSpoilIff. */
  predicate HarmedBy(t: Stream, states: seq<Receiver>, actions: seq<LateAction>, j: nat, k: nat)
    requires k < |actions| <= |states|
  {
    || (j == k && Reopens(states[k], t, actions[k]) && CString(actions[k].m.text) != "")
    || (&& ReopenedAt(t, states, actions, j, k)
        && (|| AddsText(states[k], t, actions[k])
            || Raises(states[k], actions[k])
            || (Repeats(states[k], t, actions[k]) && actions[k].m.done)))
  }

  lemma HarmsIff(t: Stream, states: seq<Receiver>, actions: seq<LateAction>, k: nat)
    requires k < |actions| <= |states|
    requires Reopened(states[k], t) <==> SomewhereReopened(t, states, actions, k)
    requires AddsText(states[k], t, actions[k]) ==> Reopens(states[k], t, actions[k]) || Reopened(states[k], t)
    ensures Harms(states[k], t, actions[k]) <==> exists j: nat :: HarmedBy(t, states, actions, j, k)
  {
    if Harms(states[k], t, actions[k]) {
      if Reopened(states[k], t) {
        var j: nat :| ReopenedAt(t, states, actions, j, k);
        assert HarmedBy(t, states, actions, j, k);
      } else {
        assert HarmedBy(t, states, actions, k, k);
      }
    }
  }

  ghost predicate AlwaysIntact(t: Stream, states: seq<Receiver>, n: nat)
    requires n < |states|
  {
    forall m: nat :: m <= n ==> Intact(states[m], t)
  }

  ghost predicate NeverHarmed(t: Stream, states: seq<Receiver>, actions: seq<LateAction>, n: nat)
    requires n <= |actions| <= |states|
  {
    forall j: nat, k: nat :: k < n ==> !HarmedBy(t, states, actions, j, k)
  }

  /**
    After the first `done`, the live snapshot stays the leader's at every moment
    if and only if no first chunk of the stream is accepted again that has text,
    or that is followed, before a restart, by a later chunk that has text, by
    `done`, or by a newer term.
  */
  lemma {:induction false} LateRequestsSpoilIff(t: Stream, states: seq<Receiver>, actions: seq<LateAction>, n: nat)
    requires IsLateRun(t, states, actions) && n < |states|
    ensures AlwaysIntact(t, states, n) <==> NeverHarmed(t, states, actions, n)
  {
    if n == 0 {
      StartsLive(states[0], t);
    } else {
      LateRequestsSpoilIff(t, states, actions, n - 1);
      ReopenedIff(t, states, actions, n - 1);
      LateStepKeeps(states[n - 1], states[n], t, actions[n - 1]);
      HarmsIff(t, states, actions, n - 1);
    }
  }

  /** Every snapshot with a file can be lost: its first chunk comes again, and then a newer term. */
  lemma EverySnapshotCanBeLost(x: Receiver, t: Stream) returns (states: seq<Receiver>, actions: seq<LateAction>)
    requires IsSnapshot(t) && x.s.Shaped() && Installed(x, t) && t.source.Keys != {}
    ensures IsLateRun(t, states, actions) && states[0] == x && |actions| == 2
    ensures actions[0].Late? && Genuine(t, actions[0].m) && actions[1] == Newer(t.term + 1)
    ensures !Intact(states[2], t)
  {
    HasPieces(t);
    var piece := t.Pieces()[0];
    var m := InstallRequest(t.term, 0, 0, t.id, 0, false, 0, piece.name, piece.text);
    var y := Handle(x, m);
    var z := Converted(y, t.term + 1);
    states, actions := [x, y, z], [Late(m), Newer(t.term + 1)];
    PiecesOfFiles(t, 0);
  }

  lemma HasPieces(t: Stream)
    requires IsSnapshot(t) && t.source.Keys != {}
    ensures |t.Pieces()| > 0
  {
    SplitReassemble(t.source);
    assert |t.Pieces()| == 0 ==> AppendAll(map[], Printed(t.Pieces())) == map[];
  }
}
