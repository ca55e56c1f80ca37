/**
  Directories and what transactions do to them. A directory maps file names to
  texts; the program manages the hundred names file_0 .. file_99
  (raft_storage_manager.c).
*/
module Files {
  import opened RaftTypes

  type Dir = map<string, string>

  const MAX_FILES := 100

  /** The size of a text buffer (packet_format.h). */
  const BUFFER_SIZE := 1024

  /** The id under which Raft_get_snapshot_path gives the directory of the main files. */
  const MAIN := -1

  // ---------------------------------------------------------------------------
  // File names

  function Digit(d: nat): char
    requires d < 10
  {
    ('0' as int + d) as char
  }

  function FileName(n: nat): string
    requires n < MAX_FILES
  {
    "file_" + if n < 10 then [Digit(n)] else [Digit(n / 10), Digit(n % 10)]
  }

  lemma FileNameInjective(a: nat, b: nat)
    requires a < MAX_FILES && b < MAX_FILES && FileName(a) == FileName(b)
    ensures a == b
  {
    assert FileName(a)[5..] == FileName(b)[5..];
    assert FileName(a)[5] == FileName(b)[5];
    if a >= 10 {
      assert FileName(a)[6] == FileName(b)[6];
    }
  }

  function ManagedBelow(n: nat): set<string>
    requires n <= MAX_FILES
  {
    set k | 0 <= k < n :: FileName(k)
  }

  function Managed(): set<string> {
    ManagedBelow(MAX_FILES)
  }

  // ---------------------------------------------------------------------------
  // Reading and appending

  /** A file that does not exist reads as empty. */
  function Text(d: Dir, name: string): string {
    if name in d then d[name] else ""
  }

  /** What a reader of the managed files sees. */
  function Texts(d: Dir, names: set<string>): Dir {
    map name | name in names :: Text(d, name)
  }

  /** Equal texts, file by file. */
  lemma SameTextsIff(a: Dir, b: Dir, names: set<string>)
    ensures Texts(a, names) == Texts(b, names) <==> forall name :: name in names ==> Text(a, name) == Text(b, name)
  {
    if Texts(a, names) == Texts(b, names) {
      forall name | name in names
        ensures Text(a, name) == Text(b, name)
      {
        assert Texts(a, names)[name] == Texts(b, names)[name];
      }
    }
  }

  /** fopen(.., "a") and fprintf: the file is created if need be. */
  function Append(d: Dir, w: FileWrite): Dir {
    d[w.name := Text(d, w.name) + w.text]
  }

  function AppendAll(d: Dir, ws: seq<FileWrite>): (r: Dir)
    decreases |ws|
  {
    if |ws| == 0 then d else Append(AppendAll(d, ws[..|ws| - 1]), ws[|ws| - 1])
  }

  lemma AppendAllConcat(d: Dir, a: seq<FileWrite>, b: seq<FileWrite>)
    ensures AppendAll(d, a + b) == AppendAll(AppendAll(d, a), b)
    decreases |b|
  {
    if b == [] {
      assert a + b == a;
    } else {
      var last := |b| - 1;
      assert (a + b)[..|a + b| - 1] == a + b[..last];
      AppendAllConcat(d, a, b[..last]);
    }
  }

  lemma AppendAllSnoc(d: Dir, ws: seq<FileWrite>, w: FileWrite)
    ensures AppendAll(d, ws + [w]) == Append(AppendAll(d, ws), w)
  {
    assert (ws + [w])[..|ws|] == ws;
  }

  lemma AppendAllCons(d: Dir, w: FileWrite, ws: seq<FileWrite>)
    ensures AppendAll(d, [w] + ws) == AppendAll(Append(d, w), ws)
  {
    assert [] + [w] == [w];
    AppendAllSnoc(d, [], w);
    AppendAllConcat(d, [w], ws);
  }

  /** The text that a sequence of writes adds to one file. */
  function Added(ws: seq<FileWrite>, name: string): string
    decreases |ws|
  {
    if |ws| == 0 then ""
    else
      var (init, last) := (ws[..|ws| - 1], ws[|ws| - 1]);
      Added(init, name) + if last.name == name then last.text else ""
  }

  lemma {:induction false} TextAppendAll(d: Dir, ws: seq<FileWrite>, name: string)
    ensures Text(AppendAll(d, ws), name) == Text(d, name) + Added(ws, name)
    decreases |ws|
  {
    if ws != [] {
      TextAppendAll(d, ws[..|ws| - 1], name);
    }
  }

  lemma {:induction false} AppendAllKeys(d: Dir, ws: seq<FileWrite>)
    ensures AppendAll(d, ws).Keys == d.Keys + (set k | 0 <= k < |ws| :: ws[k].name)
    decreases |ws|
  {
    if ws != [] {
      AppendAllKeys(d, ws[..|ws| - 1]);
      var (last, init) := (|ws| - 1, ws[..|ws| - 1]);
      assert forall k :: 0 <= k < last ==> init[k] == ws[k];
      var (small, big) := ((set k | 0 <= k < last :: init[k].name), (set k | 0 <= k < |ws| :: ws[k].name));
      assert big == small + {ws[last].name};
    }
  }

  // ---------------------------------------------------------------------------
  // Transactions

  /** How many slots of a transaction table, from slot k on, precede the first empty name. */
  function Used(data: seq<FileWrite>, k: nat): nat
    requires k <= |data|
    decreases |data| - k
  {
    if k == |data| || data[k].name == "" then 0 else 1 + Used(data, k + 1)
  }

  lemma {:induction false} UsedEndsAtEmptyName(data: seq<FileWrite>, k: nat)
    requires k <= |data|
    ensures var n := k + Used(data, k);
      && n <= |data| && (n < |data| ==> data[n].name == "")
      && (forall i :: k <= i < n ==> data[i].name != "")
    decreases |data| - k
  {
    if k < |data| && data[k].name != "" {
      UsedEndsAtEmptyName(data, k + 1);
    }
  }

  /** The slots of a transaction table up to the first empty name (server.c:102-105). */
  function Slots(data: seq<FileWrite>): seq<FileWrite> {
    UsedEndsAtEmptyName(data, 0);
    data[..Used(data, 0)]
  }

  /** What an entry writes when it is committed: nothing, for an entry that opens a tenure. */
  function Writes(e: Entry): seq<FileWrite> {
    if e.kind.LeaderLog? then [] else Slots(e.data)
  }

  /** Raft_commit_update with handle_raft_commit: the entries lo .. hi - 1 in order, each exactly once. */
  function ReplayFrom(d: Dir, es: seq<Entry>, lo: nat, hi: nat): Dir
    requires hi <= |es|
    decreases hi
  {
    if hi <= lo then d else AppendAll(ReplayFrom(d, es, lo, hi - 1), Writes(es[hi - 1]))
  }

  function ReplayOnto(d: Dir, es: seq<Entry>): Dir {
    ReplayFrom(d, es, 0, |es|)
  }

  /** The reference: what the transactions of a log prefix make of empty files. */
  function Replay(es: seq<Entry>): Dir {
    ReplayOnto(map[], es)
  }

  /** The replay of the first n entries. */
  function ReplayFirst(es: seq<Entry>, n: nat): Dir
    requires n <= |es|
  {
    ReplayFrom(map[], es, 0, n)
  }

  // Only the entries replayed matter, and not where in a log they are.

  lemma {:induction false} ReplayHead(d: Dir, a: seq<Entry>, b: seq<Entry>, lo: nat, hi: nat)
    requires hi <= |a|
    ensures ReplayFrom(d, a + b, lo, hi) == ReplayFrom(d, a, lo, hi)
    decreases hi
  {
    if lo < hi {
      ReplayHead(d, a, b, lo, hi - 1);
    }
  }

  lemma {:induction false} ReplayTail(d: Dir, a: seq<Entry>, b: seq<Entry>, n: nat)
    requires n <= |b|
    ensures ReplayFrom(d, a + b, |a|, |a| + n) == ReplayFrom(d, b, 0, n)
    decreases n
  {
    if n > 0 {
      ReplayTail(d, a, b, n - 1);
    }
  }

  lemma {:induction false} ReplayTake(d: Dir, es: seq<Entry>, k: nat, lo: nat, hi: nat)
    requires hi <= k <= |es|
    ensures ReplayFrom(d, es[..k], lo, hi) == ReplayFrom(d, es, lo, hi)
    decreases hi
  {
    if lo < hi {
      ReplayTake(d, es, k, lo, hi - 1);
    }
  }

  lemma {:induction false} ReplayDrop(d: Dir, es: seq<Entry>, k: nat, n: nat)
    requires k + n <= |es|
    ensures ReplayFrom(d, es[k..], 0, n) == ReplayFrom(d, es, k, k + n)
    decreases n
  {
    if n > 0 {
      ReplayDrop(d, es, k, n - 1);
    }
  }

  lemma {:induction false} ReplaySplit(d: Dir, es: seq<Entry>, lo: nat, mid: nat, hi: nat)
    requires lo <= mid <= hi <= |es|
    ensures ReplayFrom(ReplayFrom(d, es, lo, mid), es, mid, hi) == ReplayFrom(d, es, lo, hi)
    decreases hi
  {
    if mid < hi {
      ReplaySplit(d, es, lo, mid, hi - 1);
    }
  }

  /** The replay may stop at a and go on with what is left of the log. */
  lemma ReplayRest(d: Dir, es: seq<Entry>, a: nat, b: nat)
    requires a <= b <= |es|
    ensures ReplayFrom(ReplayFrom(d, es, 0, a), es[a..], 0, b - a) == ReplayFrom(d, es, 0, b)
  {
    ReplayDrop(ReplayFrom(d, es, 0, a), es, a, b - a);
    ReplaySplit(d, es, 0, a, b);
  }

  lemma ReplayConcat(d: Dir, a: seq<Entry>, b: seq<Entry>)
    ensures ReplayOnto(d, a + b) == ReplayOnto(ReplayOnto(d, a), b)
  {
    ReplaySplit(d, a + b, 0, |a|, |a + b|);
    ReplayHead(d, a, b, 0, |a|);
    ReplayTail(ReplayOnto(d, a), a, b, |b|);
  }

  /** A log that is cut at a, with its head put under it, replays as before. */
  lemma ReplayCut(below: seq<Entry>, log: seq<Entry>, a: nat, n: nat, b: nat)
    requires a + n == b <= |log|
    ensures Replay(below + log[..a]) == ReplayFrom(Replay(below), log, 0, a)
    ensures ReplayFrom(Replay(below + log[..a]), log[a..], 0, n) == ReplayFrom(Replay(below), log, 0, b)
  {
    ReplayConcat(map[], below, log[..a]);
    ReplayTake(Replay(below), log, a, 0, a);
    ReplayRest(Replay(below), log, a, b);
  }

  /** The text that the entries lo .. hi - 1 add to one file. */
  function AddedFrom(es: seq<Entry>, lo: nat, hi: nat, name: string): string
    requires hi <= |es|
    decreases hi
  {
    if hi <= lo then "" else AddedFrom(es, lo, hi - 1, name) + Added(Writes(es[hi - 1]), name)
  }

  lemma {:induction false} AddedSplit(es: seq<Entry>, lo: nat, mid: nat, hi: nat, name: string)
    requires lo <= mid <= hi <= |es|
    ensures AddedFrom(es, lo, hi, name) == AddedFrom(es, lo, mid, name) + AddedFrom(es, mid, hi, name)
    decreases hi
  {
    if mid < hi {
      AddedSplit(es, lo, mid, hi - 1, name);
      TextsAssociate(AddedFrom(es, lo, mid, name), AddedFrom(es, mid, hi - 1, name), Added(Writes(es[hi - 1]), name));
    }
  }

  lemma {:induction false} AddedTake(es: seq<Entry>, k: nat, lo: nat, hi: nat, name: string)
    requires hi <= k <= |es|
    ensures AddedFrom(es[..k], lo, hi, name) == AddedFrom(es, lo, hi, name)
    decreases hi
  {
    if lo < hi {
      AddedTake(es, k, lo, hi - 1, name);
    }
  }

  function AddedBy(es: seq<Entry>, name: string): string {
    AddedFrom(es, 0, |es|, name)
  }

  lemma {:induction false} TextReplayFrom(d: Dir, es: seq<Entry>, lo: nat, hi: nat, name: string)
    requires hi <= |es|
    ensures Text(ReplayFrom(d, es, lo, hi), name) == Text(d, name) + AddedFrom(es, lo, hi, name)
    decreases hi
  {
    if lo < hi {
      var ws := Writes(es[hi - 1]);
      TextReplayFrom(d, es, lo, hi - 1, name);
      TextAppendAll(ReplayFrom(d, es, lo, hi - 1), ws, name);
      TextsAssociate(Text(d, name), AddedFrom(es, lo, hi - 1, name), Added(ws, name));
    }
  }

  /** The same entries make equal texts of equal texts. */
  lemma TextsReplay(x: Dir, y: Dir, es: seq<Entry>, lo: nat, hi: nat, names: set<string>)
    requires hi <= |es| && forall name :: name in names ==> Text(x, name) == Text(y, name)
    ensures forall name :: name in names ==> Text(ReplayFrom(x, es, lo, hi), name) == Text(ReplayFrom(y, es, lo, hi), name)
  {
    forall name | name in names
      ensures Text(ReplayFrom(x, es, lo, hi), name) == Text(ReplayFrom(y, es, lo, hi), name)
    {
      TextReplayFrom(x, es, lo, hi, name);
      TextReplayFrom(y, es, lo, hi, name);
    }
  }

  lemma TextReplay(d: Dir, es: seq<Entry>, name: string)
    ensures Text(ReplayOnto(d, es), name) == Text(d, name) + AddedBy(es, name)
  {
    TextReplayFrom(d, es, 0, |es|, name);
  }

  lemma TextsAssociate(x: string, y: string, z: string)
    ensures (x + y) + z == x + (y + z)
  {
  }

  // ---------------------------------------------------------------------------
  // Whole directories

  /** Raft_copy_snapshot: managed files of the source replace those of the target. */
  function Copy(source: Dir, target: Dir, names: set<string>): Dir {
    target + (map name | name in source && name in names :: source[name])
  }

  /** Raft_clean_main_files: every managed file exists and is empty. */
  function Clean(d: Dir, names: set<string>): Dir {
    d + (map name | name in names :: "")
  }

  /** After a copy every file of the source is in the target, and all other files of the target are as they were. */
  lemma CopyLaw(source: Dir, target: Dir, names: set<string>, name: string)
    ensures var r := Copy(source, target, names);
      && (name in names && name in source ==> name in r && r[name] == source[name])
      && (!(name in names && name in source) ==> (name in r <==> name in target) && Text(r, name) == Text(target, name))
  {
  }

  /** After cleaning every managed file exists, even if it did not before, and is empty; all others are as they were. */
  lemma CleanLaw(d: Dir, names: set<string>, name: string)
    ensures var r := Clean(d, names);
      && (name in names ==> name in r && r[name] == "")
      && (name !in names ==> (name in r <==> name in d) && Text(r, name) == Text(d, name))
  {
  }

  /**
    Copying never truncates a file that the source lacks; that does no harm if
    the target was built from a prefix of what the source was built from: such a
    file has no text in either.
  */
  lemma CopyOverPrefix(target: Dir, source: Dir, es: seq<Entry>, k: nat, n: nat, names: set<string>)
    requires k <= n <= |es|
    requires forall name :: name in names ==> Text(target, name) == Text(ReplayFirst(es, k), name)
    requires forall name :: name in names ==> Text(source, name) == Text(ReplayFirst(es, n), name)
    ensures forall name :: name in names ==> Text(Copy(source, target, names), name) == Text(ReplayFirst(es, n), name)
  {
    ReplaySplit(map[], es, 0, k, n);
    forall name | name in names
      ensures Text(Copy(source, target, names), name) == Text(ReplayFirst(es, n), name)
    {
      TextReplayFrom(ReplayFirst(es, k), es, k, n, name);
    }
  }

  // ---------------------------------------------------------------------------
  // Building a snapshot into a directory that already exists

  lemma SameEnding(x: string, y: string, z: string)
    ensures x + z == y + z <==> x == y
  {
    if x + z == y + z {
      assert (x + z)[..|x|] == x && (y + z)[..|y|] == y;
    }
  }

  /**
    The files of Raft_create_snapshot when its directory still holds `leftover`:
    mkdir leaves it, the copy replaces only files of the base, and the entries
    are appended to what is there.
  */
  function SnapshotInto(leftover: Dir, base: Dir, es: seq<Entry>, names: set<string>): Dir {
    ReplayOnto(Copy(base, leftover, names), es)
  }

  /** The snapshot is right exactly if no file that the base lacks has leftover text. */
  lemma LeftoverHarmless(leftover: Dir, base: Dir, es: seq<Entry>, names: set<string>)
    ensures Texts(SnapshotInto(leftover, base, es, names), names) == Texts(ReplayOnto(base, es), names)
       <==> forall name :: name in names && name !in base ==> Text(leftover, name) == ""
  {
    var (got, right) := (SnapshotInto(leftover, base, es, names), ReplayOnto(base, es));
    forall name | name in names
      ensures Text(got, name) == Text(right, name) <==> name in base || Text(leftover, name) == ""
    {
      TextReplay(Copy(base, leftover, names), es, name);
      TextReplay(base, es, name);
      SameEnding(Text(Copy(base, leftover, names), name), Text(base, name), AddedBy(es, name));
    }
    if Texts(got, names) == Texts(right, names) {
      forall name | name in names && name !in base
        ensures Text(leftover, name) == ""
      {
        assert Texts(got, names)[name] == Texts(right, names)[name];
      }
    }
  }
}
