/**
  The algebra behind log matching. The reference is a family of logs, one for
  each term that has had a leader: what that leader's log was during its tenure.
  A log matches the family if each of its entries sits on exactly the prefix
  that the leader of the entry's term had below it.
*/
module TermLogs {
  import opened RaftTypes

  type Log = seq<Entry>
  type Family = map<int, Log>

  /** The term at position k, or -1 outside the log (Raft_get_log_term). */
  function TermOf(log: Log, k: int): int {
    if 0 <= k < |log| then log[k].term else -1
  }

  predicate Sorted(log: Log) {
    forall i, j :: 0 <= i <= j < |log| ==> log[i].term <= log[j].term
  }

  predicate TermsWithin(log: Log, lo: int, hi: int) {
    forall k :: 0 <= k < |log| ==> lo <= log[k].term <= hi
  }

  /** The entry at k sits on the prefix that the leader of its term had. */
  predicate MatchedAt(log: Log, k: nat, tl: Family)
    requires k < |log|
  {
    var t := log[k].term;
    t in tl && k < |tl[t]| && log[..k + 1] == tl[t][..k + 1]
  }

  predicate Matched(log: Log, tl: Family) {
    forall k :: 0 <= k < |log| ==> MatchedAt(log, k, tl)
  }

  /** A leader's log ends with an entry of its own term. */
  predicate EndsWith(log: Log, t: int) {
    log != [] && log[|log| - 1].term == t
  }

  /** The family is made of logs that match it, sorted, and ending with their own term. */
  ghost predicate Coherent(tl: Family) {
    forall t :: t in tl ==>
      t >= 1 && Matched(tl[t], tl) && Sorted(tl[t]) && TermsWithin(tl[t], 1, t) && EndsWith(tl[t], t)
  }

  predicate Agree(a: Log, b: Log, n: nat) {
    n <= |a| && n <= |b| && a[..n] == b[..n]
  }

  // ---------------------------------------------------------------------------
  // Log matching

  /** Two matching logs with the same term at k are identical up to k. */
  lemma SameTermSamePrefix(a: Log, b: Log, k: nat, tl: Family)
    requires Matched(a, tl) && Matched(b, tl)
    requires k < |a| && k < |b| && a[k].term == b[k].term
    ensures Agree(a, b, k + 1)
  {
    assert MatchedAt(a, k, tl) && MatchedAt(b, k, tl);
  }

  lemma MatchedPrefix(log: Log, n: nat, tl: Family)
    requires Matched(log, tl) && n <= |log|
    ensures Matched(log[..n], tl)
  {
    forall k | 0 <= k < n
      ensures MatchedAt(log[..n], k, tl)
    {
      assert MatchedAt(log, k, tl);
      assert log[..n][..k + 1] == log[..k + 1];
    }
  }

  lemma MatchedSorted(log: Log, tl: Family)
    requires Matched(log, tl) && Coherent(tl)
    ensures Sorted(log) && (log != [] ==> TermsWithin(log, 1, log[|log| - 1].term))
  {
    if log != [] {
      var k := |log| - 1;
      assert MatchedAt(log, k, tl);
      assert log == log[..k + 1];
    }
  }

  // ---------------------------------------------------------------------------
  // Growth of the family

  /** The leader of term t adds e to its log. */
  function Extended(tl: Family, t: int, e: Entry): Family
    requires t in tl
  {
    tl[t := tl[t] + [e]]
  }

  lemma MatchedAtGrows(log: Log, k: nat, tl: Family, tl': Family)
    requires k < |log| && MatchedAt(log, k, tl)
    requires forall t :: t in tl ==> t in tl' && |tl[t]| <= |tl'[t]| && tl'[t][..|tl[t]|] == tl[t]
    ensures MatchedAt(log, k, tl')
  {
    var t := log[k].term;
    assert tl'[t][..k + 1] == tl'[t][..|tl[t]|][..k + 1];
  }

  lemma MatchedGrows(log: Log, tl: Family, tl': Family)
    requires Matched(log, tl)
    requires forall t :: t in tl ==> t in tl' && |tl[t]| <= |tl'[t]| && tl'[t][..|tl[t]|] == tl[t]
    ensures Matched(log, tl')
  {
    forall k | 0 <= k < |log|
      ensures MatchedAt(log, k, tl')
    {
      assert MatchedAt(log, k, tl);
      MatchedAtGrows(log, k, tl, tl');
    }
  }

  lemma MatchedExtended(log: Log, tl: Family, t: int, e: Entry)
    requires Matched(log, tl) && t in tl
    ensures Matched(log, Extended(tl, t, e))
  {
    MatchedGrows(log, tl, Extended(tl, t, e));
  }

  lemma MatchedSnoc(log: Log, e: Entry, tl: Family)
    requires Matched(log, tl) && e.term in tl && tl[e.term] == log + [e]
    ensures Matched(log + [e], tl)
  {
    forall k | 0 <= k < |log| + 1
      ensures MatchedAt(log + [e], k, tl)
    {
      if k < |log| {
        assert MatchedAt(log, k, tl);
        assert (log + [e])[..k + 1] == log[..k + 1];
      }
    }
  }

  lemma ExtendedCoherent(tl: Family, t: int, e: Entry)
    requires Coherent(tl) && t in tl && e.term == t
    ensures Coherent(Extended(tl, t, e))
  {
    var tl' := Extended(tl, t, e);
    forall u | u in tl'
      ensures Matched(tl'[u], tl') && Sorted(tl'[u]) && TermsWithin(tl'[u], 1, u)
    {
      MatchedExtended(tl[u], tl, t, e);
      if u == t {
        MatchedSnoc(tl[t], e, tl');
      }
    }
  }

  /** A new term opens with a matching log and one entry of its own. */
  lemma OpenedCoherent(tl: Family, t: int, log: Log, e: Entry)
    requires Coherent(tl) && t !in tl && t >= 1 && e.term == t
    requires Matched(log, tl) && TermsWithin(log, 1, t)
    ensures Coherent(tl[t := log + [e]]) && Matched(log + [e], tl[t := log + [e]])
  {
    var tl' := tl[t := log + [e]];
    MatchedGrows(log, tl, tl');
    MatchedSnoc(log, e, tl');
    MatchedSorted(log, tl);
    forall u | u in tl && u != t
      ensures Matched(tl'[u], tl')
    {
      MatchedGrows(tl[u], tl, tl');
    }
  }

  // ---------------------------------------------------------------------------
  // Retention

  /** x is a prefix of the log. */
  predicate Holds(log: Log, x: Log) {
    x <= log
  }

  /** Some leader of a term in (lo, hi] did not have x. */
  ghost predicate LostBetween(tl: Family, x: Log, lo: int, hi: int) {
    exists u :: lo < u <= hi && u in tl && !Holds(tl[u], x)
  }

  /** A leader that lacks x never gets it: it only adds entries of its own, newer term. */
  lemma LostExtended(tl: Family, x: Log, lo: int, hi: int, t: int, e: Entry)
    requires LostBetween(tl, x, lo, hi) && t in tl && e.term == t
    requires forall k :: 0 <= k < |x| ==> x[k].term <= lo
    ensures LostBetween(Extended(tl, t, e), x, lo, hi)
  {
    var u :| lo < u <= hi && u in tl && !Holds(tl[u], x);
    var tl' := Extended(tl, t, e);
    if u == t {
      if |x| <= |tl[u]| {
        assert tl'[u][..|x|] == tl[u][..|x|];
      } else {
        assert tl'[u][|tl[u]|].term > x[|tl[u]|].term;
      }
    }
    assert !Holds(tl'[u], x);
  }

  lemma LostOpened(tl: Family, x: Log, lo: int, hi: int, t: int, log: Log)
    requires LostBetween(tl, x, lo, hi) && t !in tl
    ensures LostBetween(tl[t := log], x, lo, hi)
  {
    var u :| lo < u <= hi && u in tl && !Holds(tl[u], x);
    assert !Holds(tl[t := log][u], x);
  }

  /**
    The election restriction. If the voter's log holds the entry of term t at
    position k, and the candidate's log is at least as up to date, the candidate
    holds it too, or a leader between t and the candidate's last term lost it.
  */
  lemma UpToDateKeeps(voter: Log, candidate: Log, tl: Family, t: int, k: nat)
    requires Coherent(tl) && Matched(voter, tl) && Matched(candidate, tl)
    requires t in tl && k < |tl[t]| && tl[t][k].term == t && Holds(voter, tl[t][..k + 1])
    requires var (cand, own) := (TermOf(candidate, |candidate| - 1), TermOf(voter, |voter| - 1));
             cand > own || (cand == own && |candidate| >= |voter|)
    ensures Holds(candidate, tl[t][..k + 1])
            || LostBetween(tl, tl[t][..k + 1], t, TermOf(candidate, |candidate| - 1))
  {
    var x := tl[t][..k + 1];
    MatchedSorted(voter, tl);
    MatchedSorted(candidate, tl);
    assert voter[k] == x[k];
    var own := voter[|voter| - 1].term;
    assert own >= t;
    assert candidate != [];
    var n := |candidate| - 1;
    var last := candidate[n].term;
    assert MatchedAt(candidate, n, tl) && candidate == candidate[..n + 1];
    if last == own {
      assert MatchedAt(voter, |voter| - 1, tl) && voter == voter[..|voter|];
      assert voter <= candidate;
    } else if Holds(tl[last], x) {
      assert tl[last][k] == x[k] && tl[last][n].term == last > t;
      assert k < n;
      assert x == tl[last][..k + 1] == candidate[..k + 1];
    }
  }
}
