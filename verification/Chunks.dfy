/**
  Splitting a snapshot directory into chunks and putting it together again
  (raft_storage_manager.c:91-134).
*/
module Chunks {
  import opened RaftTypes
  import opened Files

  const NUL: char := '\0'

  predicate NulFree(text: string) {
    forall i :: 0 <= i < |text| ==> text[i] != NUL
  }

  /** What "%s" prints of a buffer: everything up to the first NUL. */
  function CString(buffer: string): string {
    if buffer == "" || buffer[0] == NUL then "" else [buffer[0]] + CString(buffer[1..])
  }

  lemma {:induction false} CStringWhole(buffer: string)
    ensures |CString(buffer)| <= |buffer|
    ensures NulFree(buffer) ==> CString(buffer) == buffer
    ensures !NulFree(buffer) ==> |CString(buffer)| < |buffer|
  {
    if buffer != "" {
      CStringWhole(buffer[1..]);
      assert buffer == [buffer[0]] + buffer[1..];
    }
  }

  // ---------------------------------------------------------------------------
  // Splitting

  /** The pieces of one file; only the last is short, and it may be empty. */
  function FileChunks(name: string, text: string): seq<FileWrite> {
    if |text| < BUFFER_SIZE then [FileWrite(name, text)]
    else [FileWrite(name, text[..BUFFER_SIZE])] + FileChunks(name, text[BUFFER_SIZE..])
  }

  lemma {:induction false} FileChunkCount(name: string, text: string)
    ensures |FileChunks(name, text)| == |text| / BUFFER_SIZE + 1
  {
    if |text| >= BUFFER_SIZE {
      FileChunkCount(name, text[BUFFER_SIZE..]);
    }
  }

  /** The pieces of the managed files numbered n and above, in order. */
  function DirChunks(d: Dir, n: nat): seq<FileWrite>
    requires n <= MAX_FILES
    decreases MAX_FILES - n
  {
    if n == MAX_FILES then []
    else if FileName(n) in d then FileChunks(FileName(n), d[FileName(n)]) + DirChunks(d, n + 1)
    else DirChunks(d, n + 1)
  }

  lemma {:induction false} FileChunkNames(name: string, text: string, k: nat)
    requires k < |FileChunks(name, text)|
    ensures FileChunks(name, text)[k].name == name
  {
    if |text| >= BUFFER_SIZE && k > 0 {
      FileChunkNames(name, text[BUFFER_SIZE..], k - 1);
    }
  }

  lemma {:induction false} DirChunkNames(d: Dir, n: nat, k: nat)
    requires n <= MAX_FILES && k < |DirChunks(d, n)|
    ensures DirChunks(d, n)[k].name in d && DirChunks(d, n)[k].name in Managed()
    decreases MAX_FILES - n
  {
    var name := FileName(n);
    if name !in d {
      DirChunkNames(d, n + 1, k);
    } else if k < |FileChunks(name, d[name])| {
      FileChunkNames(name, d[name], k);
    } else {
      DirChunkNames(d, n + 1, k - |FileChunks(name, d[name])|);
    }
  }

  /** The sum of floor(length / 1024) + 1 over the files numbered n and above. */
  function ChunkTotal(d: Dir, n: nat): nat
    requires n <= MAX_FILES
    decreases MAX_FILES - n
  {
    if n == MAX_FILES then 0
    else (if FileName(n) in d then |d[FileName(n)]| / BUFFER_SIZE + 1 else 0) + ChunkTotal(d, n + 1)
  }

  lemma {:induction false} DirChunkCount(d: Dir, n: nat)
    requires n <= MAX_FILES
    ensures |DirChunks(d, n)| == ChunkTotal(d, n)
    decreases MAX_FILES - n
  {
    if n < MAX_FILES {
      DirChunkCount(d, n + 1);
      if FileName(n) in d {
        FileChunkCount(FileName(n), d[FileName(n)]);
      }
    }
  }

  // ---------------------------------------------------------------------------
  // Reassembly

  /** The chunks as Raft_add_to_snapshot prints them. */
  function Printed(ws: seq<FileWrite>): (r: seq<FileWrite>)
    ensures |r| == |ws|
    ensures forall k :: 0 <= k < |ws| ==> r[k] == FileWrite(ws[k].name, CString(ws[k].text))
  {
    seq(|ws|, k requires 0 <= k < |ws| => FileWrite(ws[k].name, CString(ws[k].text)))
  }

  /** What becomes of a text that is cut into pieces each of which is printed. */
  function Joined(text: string): string {
    if |text| < BUFFER_SIZE then CString(text) else CString(text[..BUFFER_SIZE]) + Joined(text[BUFFER_SIZE..])
  }

  lemma {:induction false} JoinedWhole(text: string)
    ensures |Joined(text)| <= |text|
    ensures Joined(text) == text <==> NulFree(text)
  {
    if |text| < BUFFER_SIZE {
      CStringWhole(text);
    } else {
      var (head, tail) := (text[..BUFFER_SIZE], text[BUFFER_SIZE..]);
      assert text == head + tail;
      CStringWhole(head);
      JoinedWhole(tail);
      if Joined(text) == text {
        assert |CString(head)| == |head|;
        assert tail == Joined(text)[BUFFER_SIZE..];
      }
      if NulFree(text) {
        assert forall i :: 0 <= i < |tail| ==> tail[i] == text[i + BUFFER_SIZE];
      }
    }
  }

  lemma PrintedCons(w: FileWrite, ws: seq<FileWrite>)
    ensures Printed([w] + ws) == [FileWrite(w.name, CString(w.text))] + Printed(ws)
  {
  }

  /** What the printed pieces of a file do, first piece first. */
  lemma PrintedPieces(d: Dir, w: FileWrite, ws: seq<FileWrite>)
    ensures AppendAll(d, Printed([w] + ws)) == AppendAll(d[w.name := Text(d, w.name) + CString(w.text)], Printed(ws))
  {
    PrintedCons(w, ws);
    AppendAllCons(d, FileWrite(w.name, CString(w.text)), Printed(ws));
  }

  /** Texts that follow each other in one file. */
  lemma FileGrows(d: Dir, name: string, a: string, b: string)
    ensures var d1 := d[name := Text(d, name) + a];
      d1[name := Text(d1, name) + b] == d[name := Text(d, name) + (a + b)]
  {
    TextsAssociate(Text(d, name), a, b);
  }

  lemma {:induction false} FileReassembled(d: Dir, name: string, text: string)
    ensures AppendAll(d, Printed(FileChunks(name, text))) == d[name := Text(d, name) + Joined(text)]
    decreases |text|
  {
    if |text| < BUFFER_SIZE {
      LastPiece(d, name, text);
    } else {
      var (head, tail) := (text[..BUFFER_SIZE], text[BUFFER_SIZE..]);
      PrintedPieces(d, FileWrite(name, head), FileChunks(name, tail));
      FileReassembled(d[name := Text(d, name) + CString(head)], name, tail);
      FileGrows(d, name, CString(head), Joined(tail));
    }
  }

  lemma LastPiece(d: Dir, name: string, text: string)
    ensures AppendAll(d, Printed([FileWrite(name, text)])) == d[name := Text(d, name) + CString(text)]
  {
    var piece := FileWrite(name, text);
    assert [piece] + [] == [piece];
    PrintedPieces(d, piece, []);
    assert Printed([]) == [];
  }

  function NamesFrom(n: nat): set<string> {
    set k | n <= k < MAX_FILES :: FileName(k)
  }

  /** The managed files numbered n and above, as the receiver gets them. */
  function JoinedFrom(d: Dir, n: nat): Dir {
    map name | name in d && name in NamesFrom(n) :: Joined(d[name])
  }

  lemma JoinedFromNext(base: Dir, d: Dir, n: nat)
    requires n < MAX_FILES
    ensures FileName(n) in d ==>
      base[FileName(n) := Joined(d[FileName(n)])] + JoinedFrom(d, n + 1) == base + JoinedFrom(d, n)
    ensures FileName(n) !in d ==> JoinedFrom(d, n + 1) == JoinedFrom(d, n)
  {
    NamesFromNext(n);
  }

  lemma NamesFromNext(n: nat)
    requires n < MAX_FILES
    ensures NamesFrom(n) == NamesFrom(n + 1) + {FileName(n)} && FileName(n) !in NamesFrom(n + 1)
  {
    forall k | n + 1 <= k < MAX_FILES
      ensures FileName(k) != FileName(n)
    {
      if FileName(k) == FileName(n) {
        FileNameInjective(k, n);
      }
    }
  }

  /** One file more, which the directory does not have yet. */
  lemma FileAdded(base: Dir, name: string, text: string, rest: seq<FileWrite>)
    requires name !in base
    ensures AppendAll(base, Printed(FileChunks(name, text) + rest))
         == AppendAll(base[name := Joined(text)], Printed(rest))
  {
    var chunks := FileChunks(name, text);
    assert Printed(chunks + rest) == Printed(chunks) + Printed(rest);
    AppendAllConcat(base, Printed(chunks), Printed(rest));
    FileReassembled(base, name, text);
    assert "" + Joined(text) == Joined(text);
  }

  lemma {:induction false} DirReassembled(base: Dir, d: Dir, n: nat)
    requires n <= MAX_FILES && base.Keys !! NamesFrom(n)
    ensures AppendAll(base, Printed(DirChunks(d, n))) == base + JoinedFrom(d, n)
    decreases MAX_FILES - n
  {
    if n == MAX_FILES {
      assert Printed([]) == [];
    } else {
      var name := FileName(n);
      NamesFromNext(n);
      JoinedFromNext(base, d, n);
      if name in d {
        FileAdded(base, name, d[name], DirChunks(d, n + 1));
        DirReassembled(base[name := Joined(d[name])], d, n + 1);
      } else {
        DirReassembled(base, d, n + 1);
      }
    }
  }

  /**
    Splitting and reassembly undo each other, empty files included, exactly if
    no file holds a NUL.
  */
  lemma SplitReassemble(d: Dir)
    requires d.Keys <= Managed()
    ensures AppendAll(map[], Printed(DirChunks(d, 0))) == d <==> forall name :: name in d ==> NulFree(d[name])
  {
    var r := JoinedFrom(d, 0);
    DirReassembled(map[], d, 0);
    assert map[] + r == r;
    assert Managed() == NamesFrom(0);
    forall name | name in d
      ensures name in r && (r[name] == d[name] <==> NulFree(d[name]))
    {
      JoinedWhole(d[name]);
    }
  }
}
