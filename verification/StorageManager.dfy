/**
  The loops of raft_storage_manager.c over the hundred managed files, proved
  against the functions on directories of `Files` and `Chunks`.
*/
module StorageManager {
  import opened RaftTypes
  import opened Files
  import opened Chunks

  lemma ManagedBelowNext(i: nat)
    requires i < MAX_FILES
    ensures ManagedBelow(i + 1) == ManagedBelow(i) + {FileName(i)}
  {
  }

  lemma CopyNext(source: Dir, target: Dir, i: nat)
    requires i < MAX_FILES
    ensures var (now, next) := (Copy(source, target, ManagedBelow(i)), Copy(source, target, ManagedBelow(i + 1)));
      next == if FileName(i) in source then now[FileName(i) := source[FileName(i)]] else now
  {
    ManagedBelowNext(i);
  }

  lemma CleanNext(d: Dir, i: nat)
    requires i < MAX_FILES
    ensures Clean(d, ManagedBelow(i + 1)) == Clean(d, ManagedBelow(i))[FileName(i) := ""]
  {
    ManagedBelowNext(i);
  }

  lemma RemoveNext(d: Dir, i: nat)
    requires i < MAX_FILES
    ensures d - ManagedBelow(i + 1) == (d - ManagedBelow(i)) - {FileName(i)}
  {
    ManagedBelowNext(i);
  }

  lemma NothingManagedYet(source: Dir, d: Dir)
    ensures Copy(source, d, ManagedBelow(0)) == d && Clean(d, ManagedBelow(0)) == d && d - ManagedBelow(0) == d
  {
  }

  /** The loops of raft.c:46 and raft.c:81-84 reach these snapshot ids. */
  const SWEPT_IDS := 100

  /** The loop, at n, has come to this id. */
  predicate Sweeps(id: int, n: nat, keep: int) {
    0 <= id < n && id != keep
  }

  /** What the loop leaves, at n: a directory that it has come to is gone, or keeps its unmanaged files. */
  function SweptBelow(dirs: map<int, Dir>, n: nat, keep: int): map<int, Dir> {
    map id | id in dirs && !(Sweeps(id, n, keep) && dirs[id].Keys <= Managed()) ::
      if Sweeps(id, n, keep) then dirs[id] - Managed() else dirs[id]
  }

  /**
    The sweep leaves the main files, the kept snapshot and those with ids from 100 on
    alone. Any other directory loses its managed files, and goes if that was all.
  */
  lemma SweepLaw(dirs: map<int, Dir>, keep: int, id: int)
    ensures var r := SweptBelow(dirs, SWEPT_IDS, keep);
      && r.Keys <= dirs.Keys
      && (id in dirs && (id < 0 || id >= SWEPT_IDS || id == keep) ==> id in r && r[id] == dirs[id])
      && (id in dirs && 0 <= id < SWEPT_IDS && id != keep ==>
            && (id in r <==> exists name :: name in dirs[id] && name !in Managed())
            && (id in r ==> r[id] == dirs[id] - Managed()))
  {
  }

  class FileStore {
    var dirs: map<int, Dir>

    constructor ()
      ensures dirs == map[MAIN := map[]]
    {
      dirs := map[MAIN := map[]];
    }

    /** A directory that does not exist has no file to open. */
    function DirOf(id: int): Dir
      reads this
    {
      if id in dirs then dirs[id] else map[]
    }

    /** mkdir leaves an existing directory as it is. */
    method CreateSnapshotDir(id: int)
      modifies this
      ensures dirs == if id in old(dirs) then old(dirs) else old(dirs)[id := map[]]
    {
      if id !in dirs {
        dirs := dirs[id := map[]];
      }
    }

    /** Raft_remove_snapshot: rmdir fails, and leaves the directory, if an unmanaged file is in it. */
    method RemoveSnapshot(id: int)
      requires id != MAIN
      modifies this
      ensures old(DirOf(id)).Keys <= Managed() ==> dirs == old(dirs) - {id}
      ensures !(old(DirOf(id)).Keys <= Managed()) ==> dirs == old(dirs)[id := old(DirOf(id)) - Managed()]
    {
      ghost var was := DirOf(id);
      NothingManagedYet(map[], was);
      var i := 0;
      while i < MAX_FILES
        invariant 0 <= i <= MAX_FILES
        invariant id in dirs <==> id in old(dirs)
        invariant DirOf(id) == was - ManagedBelow(i)
        invariant dirs == if id in dirs then old(dirs)[id := dirs[id]] else old(dirs)
      {
        RemoveNext(was, i);
        if id in dirs {
          dirs := dirs[id := dirs[id] - {FileName(i)}];
        }
        i := i + 1;
      }
      assert DirOf(id).Keys == was.Keys - Managed();
      if id in dirs && dirs[id] == map[] {
        dirs := dirs - {id};
      }
    }

    /** The loops that remove the snapshots of an earlier life. */
    method SweepSnapshots(keep: int)
      modifies this
      ensures dirs == SweptBelow(old(dirs), SWEPT_IDS, keep)
    {
      assert dirs == SweptBelow(dirs, 0, keep);
      var i := 0;
      while i < SWEPT_IDS
        invariant 0 <= i <= SWEPT_IDS
        invariant dirs == SweptBelow(old(dirs), i, keep)
      {
        if i != keep {
          RemoveSnapshot(i);
        }
        i := i + 1;
      }
    }

    /** The loop of Raft_clean_main_files. */
    static method CleanFiles(d: Dir) returns (r: Dir)
      ensures r == Clean(d, Managed())
    {
      NothingManagedYet(map[], d);
      r := d;
      var i := 0;
      while i < MAX_FILES
        invariant 0 <= i <= MAX_FILES
        invariant r == Clean(d, ManagedBelow(i))
      {
        CleanNext(d, i);
        r := r[FileName(i) := ""];
        i := i + 1;
      }
    }

    /** Raft_clean_main_files. */
    method CleanMainFiles()
      requires MAIN in dirs
      modifies this
      ensures dirs == old(dirs)[MAIN := Clean(old(dirs)[MAIN], Managed())]
    {
      var cleaned := CleanFiles(dirs[MAIN]);
      dirs := dirs[MAIN := cleaned];
    }

    /** The inner loop of Raft_copy_snapshot, character by character. */
    static method CopyFile(text: string) returns (copied: string)
      ensures copied == text
    {
      copied := "";
      var k := 0;
      while k < |text|
        invariant 0 <= k <= |text|
        invariant copied == text[..k]
      {
        copied := copied + [text[k]];
        k := k + 1;
      }
    }

    /** The outer loop of Raft_copy_snapshot: files that the source lacks keep their text in the target. */
    static method CopyFiles(source: Dir, target: Dir) returns (r: Dir)
      ensures r == Copy(source, target, Managed())
    {
      NothingManagedYet(source, target);
      r := target;
      var i := 0;
      while i < MAX_FILES
        invariant 0 <= i <= MAX_FILES
        invariant r == Copy(source, target, ManagedBelow(i))
      {
        CopyNext(source, target, i);
        if FileName(i) in source {
          var text := CopyFile(source[FileName(i)]);
          r := r[FileName(i) := text];
        }
        i := i + 1;
      }
    }

    /** Raft_copy_snapshot. */
    method CopySnapshot(source: int, target: int)
      requires target in dirs && source != target
      modifies this
      ensures dirs == old(dirs)[target := Copy(old(DirOf(source)), old(dirs)[target], Managed())]
    {
      var copied := CopyFiles(DirOf(source), dirs[target]);
      dirs := dirs[target := copied];
    }

    /** Raft_add_to_snapshot. */
    method AddToSnapshot(id: int, createNew: bool, name: string, buffer: string)
      requires createNew || id in dirs
      modifies this
      ensures dirs == old(dirs)[id := Append(old(DirOf(id)), FileWrite(name, CString(buffer)))]
    {
      if createNew {
        CreateSnapshotDir(id);
      }
      var text := if name in dirs[id] then dirs[id][name] else "";
      dirs := dirs[id := dirs[id][name := text + CString(buffer)]];
    }
  }

  /** snapshot_iterator_t: `offset` is the position of the open file `f`. */
  class SnapshotIterator {
    const store: FileStore
    const id: int
    var fileno: int
    var open: bool
    var offset: nat

    ghost predicate Valid()
      reads this, store
    {
      && -1 <= fileno
      && (open ==> fileno < MAX_FILES && 0 <= fileno && FileName(fileno) in store.DirOf(id)
                   && offset <= |store.DirOf(id)[FileName(fileno)]|)
    }

    /** The chunks that the iterator has yet to give. */
    ghost function Remaining(): seq<FileWrite>
      requires Valid()
      reads this, store
    {
      var next := if fileno < MAX_FILES then fileno + 1 else MAX_FILES;
      if open then
        FileChunks(FileName(fileno), store.DirOf(id)[FileName(fileno)][offset..]) + DirChunks(store.DirOf(id), next)
      else
        DirChunks(store.DirOf(id), next)
    }

    /** snapshot_it_init. */
    constructor (store: FileStore, id: int)
      ensures Valid() && this.store == store && this.id == id
      ensures Remaining() == DirChunks(store.DirOf(id), 0)
    {
      this.store, this.id := store, id;
      fileno, open, offset := -1, false, 0;
    }

    /** The loop that opens the next file that exists. */
    method OpenNext()
      requires Valid()
      modifies this
      ensures Valid() && Remaining() == old(Remaining())
      ensures !open ==> Remaining() == []
    {
      while !open
        invariant Valid() && Remaining() == old(Remaining())
        decreases !open, MAX_FILES - fileno
      {
        fileno := fileno + 1;
        if fileno >= MAX_FILES {
          return;
        }
        if FileName(fileno) in store.DirOf(id) {
          open, offset := true, 0;
          assert store.DirOf(id)[FileName(fileno)][0..] == store.DirOf(id)[FileName(fileno)];
        }
      }
    }

    /** snapshot_it_get_next: `more` is its return value. */
    method GetNext() returns (more: bool, name: string, buffer: string)
      requires Valid()
      modifies this
      ensures Valid()
      ensures more == (old(Remaining()) != [])
      ensures more ==> FileWrite(name, buffer) == old(Remaining())[0] && Remaining() == old(Remaining())[1..]
      ensures !more ==> Remaining() == []
    {
      name, buffer := "", "";
      OpenNext();
      more := open;
      if open {
        name := FileName(fileno);
        var text := store.DirOf(id)[name];
        var nread := if |text| - offset < BUFFER_SIZE then |text| - offset else BUFFER_SIZE;
        buffer := text[offset..offset + nread];
        assert text[offset..][..nread] == buffer && text[offset..][nread..] == text[offset + nread..];
        offset := offset + nread;
        if nread < BUFFER_SIZE {
          open := false;
        }
      }
    }
  }

  /** The loop of Raft_send_snapshot over the iterator: the chunks in the order of their indexes. */
  method ChunksOf(store: FileStore, id: int) returns (chunks: seq<FileWrite>)
    ensures chunks == DirChunks(store.DirOf(id), 0)
    ensures |chunks| == ChunkTotal(store.DirOf(id), 0)
  {
    var it := new SnapshotIterator(store, id);
    ghost var all := it.Remaining();
    DirChunkCount(store.DirOf(id), 0);
    chunks := [];
    var more := true;
    while more
      invariant it.Valid() && it.store == store && it.id == id && fresh(it)
      invariant chunks + it.Remaining() == all
      invariant !more ==> it.Remaining() == []
      decreases more, |it.Remaining()|
    {
      ghost var (done, rest) := (chunks, it.Remaining());
      var name, buffer;
      more, name, buffer := it.GetNext();
      if more {
        Taken(done, rest);
        chunks := chunks + [FileWrite(name, buffer)];
      }
    }
  }

  lemma Taken(done: seq<FileWrite>, rest: seq<FileWrite>)
    requires rest != []
    ensures (done + [rest[0]]) + rest[1..] == done + rest
  {
    assert rest == [rest[0]] + rest[1..];
  }
}
