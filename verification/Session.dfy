/**
  The transaction of the client that holds the lock (server.c:27-116): a table of
  ten slots, in which appends to the same file are merged.
*/
module Session {
  import opened RaftTypes
  import opened Files

  const MAX_TRANSACTION_ENTRIES := 10
  const E_LOCK := -4
  const E_LOCK_EXP := -5
  const E_TRANSACTION_LIMIT := -6

  // ---------------------------------------------------------------------------
  // Tables

  const CLEARED: FileWrite := FileWrite("", "")

  function EmptyTable(): seq<FileWrite> {
    seq(MAX_TRANSACTION_ENTRIES, k => CLEARED)
  }

  /** Gap-free, and no name twice: the names up to the first empty one are distinct, and no name follows. */
  ghost predicate WellFormed(table: seq<FileWrite>) {
    && |table| == MAX_TRANSACTION_ENTRIES
    && (forall i, j :: 0 <= i < j < |table| && table[j].name != "" ==> table[i].name != "" && table[i].name != table[j].name)
  }

  /** The slot that the search of handle_append_file stops at, from slot k on. */
  function SlotFor(table: seq<FileWrite>, name: string, k: nat): (i: nat)
    requires k <= |table|
    ensures k <= i <= |table|
    ensures i < |table| ==> table[i].name == "" || table[i].name == name
    ensures forall j :: k <= j < i ==> table[j].name != "" && table[j].name != name
    decreases |table| - k
  {
    if k == |table| || table[k].name == "" || table[k].name == name then k else SlotFor(table, name, k + 1)
  }

  predicate Accepts(table: seq<FileWrite>, w: FileWrite) {
    SlotFor(table, w.name, 0) < |table|
  }

  /** The table after an append; a rejected one changes nothing. */
  function Merged(table: seq<FileWrite>, w: FileWrite): (r: seq<FileWrite>)
    ensures |r| == |table|
  {
    var i := SlotFor(table, w.name, 0);
    if i == |table| then table
    else if table[i].name == "" then table[i := w]
    else table[i := FileWrite(w.name, table[i].text + w.text)]
  }

  /** The table after a sequence of appends. */
  function MergedAll(ws: seq<FileWrite>): (r: seq<FileWrite>)
    ensures |r| == MAX_TRANSACTION_ENTRIES
    decreases |ws|
  {
    if ws == [] then EmptyTable() else Merged(MergedAll(ws[..|ws| - 1]), ws[|ws| - 1])
  }

  /** The appends of a session that were accepted, without those that name no file. */
  function Effective(ws: seq<FileWrite>): seq<FileWrite>
    decreases |ws|
  {
    if ws == [] then []
    else
      var (init, last) := (ws[..|ws| - 1], ws[|ws| - 1]);
      if last.name != "" && Accepts(MergedAll(init), last) then Effective(init) + [last] else Effective(init)
  }

  // ---------------------------------------------------------------------------
  // The table means the same as the appends one by one

  lemma UsedIs(table: seq<FileWrite>, n: nat)
    requires n <= |table| && (forall i :: 0 <= i < n ==> table[i].name != "") && (n < |table| ==> table[n].name == "")
    ensures Slots(table) == table[..n]
  {
    UsedEndsAtEmptyName(table, 0);
  }

  lemma MergedWellFormed(table: seq<FileWrite>, w: FileWrite)
    requires WellFormed(table)
    ensures WellFormed(Merged(table, w))
  {
  }

  lemma AddedSnoc(ws: seq<FileWrite>, w: FileWrite, name: string)
    ensures Added(ws + [w], name) == Added(ws, name) + if w.name == name then w.text else ""
  {
    assert (ws + [w])[..|ws|] == ws;
  }

  lemma {:induction false} AddedElsewhere(ws: seq<FileWrite>, k: nat, w: FileWrite, name: string)
    requires k < |ws| && ws[k].name == w.name != name
    ensures Added(ws[k := w], name) == Added(ws, name)
    decreases |ws|
  {
    var last := |ws| - 1;
    if k < last {
      AddedElsewhere(ws[..last], k, w, name);
      assert ws[k := w][..last] == ws[..last][k := w];
    } else {
      assert ws[k := w][..last] == ws[..last];
    }
  }

  lemma {:induction false} AddedHere(ws: seq<FileWrite>, k: nat, text: string)
    requires k < |ws| && forall j :: 0 <= j < |ws| && j != k ==> ws[j].name != ws[k].name
    ensures Added(ws[k := FileWrite(ws[k].name, ws[k].text + text)], ws[k].name) == Added(ws, ws[k].name) + text
    decreases |ws|
  {
    var (last, w) := (|ws| - 1, FileWrite(ws[k].name, ws[k].text + text));
    if k < last {
      AddedHere(ws[..last], k, text);
      assert ws[k := w][..last] == ws[..last][k := w];
      assert Added(ws, ws[k].name) == Added(ws[..last], ws[k].name) + "";
    } else {
      assert ws[k := w][..last] == ws[..last];
      TextsAssociate(Added(ws[..last], w.name), ws[k].text, text);
    }
  }

  /** What an accepted append adds to each file, when its table is committed. */
  lemma MergedAdds(table: seq<FileWrite>, w: FileWrite, name: string)
    requires WellFormed(table) && w.name != "" && Accepts(table, w)
    ensures Added(Slots(Merged(table, w)), name) == Added(Slots(table), name) + if w.name == name then w.text else ""
    ensures Names(Slots(Merged(table, w))) == Names(Slots(table)) + {w.name}
  {
    var (i, t) := (SlotFor(table, w.name, 0), Merged(table, w));
    if table[i].name == "" {
      UsedIs(table, i);
      UsedIs(t, i + 1);
      assert Slots(t) == Slots(table) + [w];
      AddedSnoc(Slots(table), w, name);
      NamesSnoc(Slots(table), w);
    } else {
      var n := Used(table, 0);
      UsedEndsAtEmptyName(table, 0);
      UsedIs(t, n);
      var merged := FileWrite(w.name, table[i].text + w.text);
      assert Slots(t) == Slots(table)[i := merged];
      NamesUpdate(Slots(table), i, merged);
      if w.name == name {
        AddedHere(Slots(table), i, w.text);
      } else {
        AddedElsewhere(Slots(table), i, merged, name);
        assert Added(Slots(table), name) + "" == Added(Slots(table), name);
      }
    }
  }

  function Names(ws: seq<FileWrite>): set<string> {
    set k | 0 <= k < |ws| :: ws[k].name
  }

  lemma NamesSnoc(ws: seq<FileWrite>, w: FileWrite)
    ensures Names(ws + [w]) == Names(ws) + {w.name}
  {
    assert forall k :: 0 <= k < |ws| ==> (ws + [w])[k] == ws[k];
    assert (ws + [w])[|ws|] == w;
  }

  lemma NamesUpdate(ws: seq<FileWrite>, k: nat, w: FileWrite)
    requires k < |ws| && ws[k].name == w.name
    ensures Names(ws[k := w]) == Names(ws) + {w.name}
  {
    assert ws[k := w][k] == w;
    assert forall j :: 0 <= j < |ws| ==> ws[k := w][j].name == ws[j].name;
  }

  /** An append without a name is accepted or not, but never changes what is committed. */
  lemma NamelessIsLost(table: seq<FileWrite>, w: FileWrite)
    requires WellFormed(table) && w.name == ""
    ensures Slots(Merged(table, w)) == Slots(table)
  {
    var i := SlotFor(table, "", 0);
    UsedIs(table, i);
    UsedIs(Merged(table, w), i);
  }

  lemma {:induction false} TableFollows(ws: seq<FileWrite>, name: string)
    ensures WellFormed(MergedAll(ws))
    ensures Added(Slots(MergedAll(ws)), name) == Added(Effective(ws), name)
    ensures Names(Slots(MergedAll(ws))) == Names(Effective(ws))
    decreases |ws|
  {
    if ws == [] {
      UsedIs(EmptyTable(), 0);
    } else {
      var (init, last) := (ws[..|ws| - 1], ws[|ws| - 1]);
      var table := MergedAll(init);
      TableFollows(init, name);
      MergedWellFormed(table, last);
      if last.name == "" {
        NamelessIsLost(table, last);
      } else if Accepts(table, last) {
        MergedAdds(table, last, name);
        AddedSnoc(Effective(init), last, name);
        NamesSnoc(Effective(init), last);
      }
    }
  }

  /**
    Merging preserves meaning: whatever the appends of a session, committing the
    merged table does to any files what the accepted appends do one by one.
  */
  lemma MergingPreservesMeaning(ws: seq<FileWrite>, d: Dir)
    ensures WellFormed(MergedAll(ws))
    ensures AppendAll(d, Slots(MergedAll(ws))) == AppendAll(d, Effective(ws))
  {
    var (merged, single) := (Slots(MergedAll(ws)), Effective(ws));
    TableFollows(ws, "");
    AppendAllKeys(d, merged);
    AppendAllKeys(d, single);
    forall name | name in AppendAll(d, merged)
      ensures AppendAll(d, merged)[name] == AppendAll(d, single)[name]
    {
      TableFollows(ws, name);
      TextAppendAll(d, merged, name);
      TextAppendAll(d, single, name);
    }
  }

  /** An append is rejected exactly if ten other files have been written to. */
  lemma RejectedIffFull(table: seq<FileWrite>, w: FileWrite)
    requires WellFormed(table)
    ensures !Accepts(table, w) <==> |Slots(table)| == MAX_TRANSACTION_ENTRIES && w.name !in Names(Slots(table))
    ensures !Accepts(table, w) ==> Merged(table, w) == table
  {
    var i := SlotFor(table, w.name, 0);
    UsedEndsAtEmptyName(table, 0);
    if i == |table| {
      UsedIs(table, |table|);
    } else if Used(table, 0) == |table| {
      assert Slots(table)[i].name == w.name;
    }
  }

  // ---------------------------------------------------------------------------
  // The handlers

  /** handle_raft_commit. */
  method CommitTransaction(d: Dir, data: seq<FileWrite>) returns (r: Dir)
    ensures r == AppendAll(d, Slots(data))
  {
    r := d;
    var i := 0;
    while i < |data|
      invariant 0 <= i <= |data|
      invariant forall j :: 0 <= j < i ==> data[j].name != ""
      invariant r == AppendAll(d, data[..i])
    {
      if data[i].name == "" {
        break;
      }
      assert data[..i + 1][..i] == data[..i];
      r := Append(r, data[i]);
      i := i + 1;
    }
    UsedIs(data, i);
  }

  /** The global current_log_entry. */
  class Transaction {
    const data: array<FileWrite>
    var client: int
    var id: int

    ghost predicate Valid()
      reads this, data
    {
      WellFormed(data[..])
    }

    constructor ()
      ensures Valid() && fresh(data) && data[..] == EmptyTable() && id == 0
    {
      data := new FileWrite[MAX_TRANSACTION_ENTRIES](k => CLEARED);
      client, id := 0, 0;
      new;
      assert data[..] == EmptyTable();
    }

    /** handle_lock_acquire; `acquired` is the outcome of tmdspinlock_acquire. */
    method HandleLockAcquire(acquired: bool, clientId: int, currentTerm: int) returns (rc: int, message: (int, int))
      requires Valid()
      modifies this, data
      ensures Valid() && rc == (if acquired then 0 else E_LOCK)
      ensures acquired ==> data[..] == MergedAll([]) && client == clientId && id == old(id) + 1
      ensures acquired ==> message == (currentTerm, id)
      ensures !acquired ==> data[..] == old(data[..]) && client == old(client) && id == old(id)
    {
      if !acquired {
        return E_LOCK, (0, 0);
      }
      for i := 0 to data.Length
        invariant id == old(id) && forall j :: 0 <= j < i ==> data[j] == CLEARED
      {
        data[i] := CLEARED;
      }
      assert data[..] == EmptyTable();
      client := clientId;
      id := id + 1;
      return 0, (currentTerm, id);
    }

    /** handle_append_file; `owner` is the outcome of tmdspinlock_pause_if_owner. */
    method HandleAppendFile(owner: bool, name: string, text: string) returns (rc: int)
      requires Valid() && Fits(data[..], FileWrite(name, text))
      modifies data
      ensures Valid()
      ensures data[..] == if owner then Merged(old(data[..]), FileWrite(name, text)) else old(data[..])
      ensures rc == if !owner then E_LOCK_EXP
                    else if Accepts(old(data[..]), FileWrite(name, text)) then 0
                    else E_TRANSACTION_LIMIT
    {
      if !owner {
        return E_LOCK_EXP;
      }
      ghost var (table, w) := (data[..], FileWrite(name, text));
      MergedWellFormed(table, w);
      rc := E_TRANSACTION_LIMIT;
      var i := 0;
      while i < data.Length
        invariant 0 <= i <= data.Length
        invariant data[..] == table && rc == E_TRANSACTION_LIMIT
        invariant SlotFor(table, name, 0) == SlotFor(table, name, i)
      {
        if data[i].name == "" {
          data[i] := FileWrite(name, text);
          return 0;
        } else if data[i].name == name {
          data[i] := FileWrite(data[i].name, data[i].text + text);
          return 0;
        }
        i := i + 1;
      }
    }
  }

  /** The text of the file stays inside its buffer, terminating NUL included. */
  predicate Fits(table: seq<FileWrite>, w: FileWrite) {
    var i := SlotFor(table, w.name, 0);
    |w.text| < BUFFER_SIZE && (i < |table| && table[i].name != "" ==> |table[i].text| + |w.text| < BUFFER_SIZE)
  }
}
