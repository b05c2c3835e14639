/**
 * The read-only views over the transaction list: by service, by type, and
 * the most recent ones by date. They are functions of the stored list, so
 * the stored list itself is never reordered.
 */
module LedgerQueries {
  import opened Ledger
  import Seqs

  /** Newest first: dates never increase along the list. */
  ghost predicate NewestFirst(s: seq<Transaction>) {
    forall i, j :: 0 <= i < j < |s| ==> s[i].date >= s[j].date
  }

  /** `x` placed before the first element that is not newer than it. */
  function InsertByDate(x: Transaction, s: seq<Transaction>): (r: seq<Transaction>)
    ensures multiset(r) == multiset(s) + multiset{x} && |r| == |s| + 1
    ensures r[0] == x || (s != [] && r[0] == s[0])
  {
    if s == [] then [x]
    else if s[0].date <= x.date then [x] + s
    else
      assert s == [s[0]] + s[1..];
      [s[0]] + InsertByDate(x, s[1..])
  }

  /** Inserting into a newest-first list keeps it newest first. */
  lemma {:induction false} InsertByDateNewestFirst(x: Transaction, s: seq<Transaction>)
    requires NewestFirst(s)
    ensures NewestFirst(InsertByDate(x, s))
  {
    if s == [] {
    } else if s[0].date <= x.date {
      ConsNewestFirst(x, s);
    } else {
      var rest := InsertByDate(x, s[1..]);
      assert NewestFirst(s[1..]);
      InsertByDateNewestFirst(x, s[1..]);
      assert |s| > 1 ==> s[0].date >= s[1].date;
      ConsNewestFirst(s[0], rest);
    }
  }

  /** A newest-first list stays newest first when an element at least as new as its head is put in front. */
  lemma ConsNewestFirst(a: Transaction, t: seq<Transaction>)
    ensures NewestFirst(t) && (t != [] ==> a.date >= t[0].date) ==> NewestFirst([a] + t)
  {
    var u := [a] + t;
    if !NewestFirst(t) || (t != [] && a.date < t[0].date) {
      return;
    }
    forall i, j | 0 <= i < j < |u| ensures u[i].date >= u[j].date {
      if i == 0 && j > 1 {
        assert u[j] == t[j - 1];
      }
    }
  }

  /**
   * `[...transactions].sort((a, b) => b.date - a.date)`: a copy sorted newest
   * first (insertion sort, which like the engine's sort is stable).
   */
  function SortByDateDesc(s: seq<Transaction>): (r: seq<Transaction>)
    ensures multiset(r) == multiset(s) && |r| == |s|
    ensures NewestFirst(r)
  {
    if s == [] then []
    else
      assert s == [s[0]] + s[1..];
      var rest := SortByDateDesc(s[1..]);
      InsertByDateNewestFirst(s[0], rest);
      InsertByDate(s[0], rest)
  }

  /** `getServiceTransactions`: the records of one service, in stored order. */
  function ServiceTransactions(txs: seq<Transaction>, s: Service): (r: seq<Transaction>)
    ensures forall tx :: tx in r <==> tx in txs && tx.service == s
    ensures forall tx :: multiset(r)[tx] == if tx.service == s then multiset(txs)[tx] else 0
    ensures Seqs.IsSubsequence(r, txs)
  {
    var keep := (tx: Transaction) => tx.service == s;
    Seqs.FilterIsSubsequence(txs, keep);
    Seqs.Filter(txs, keep)
  }

  /** `getTransactionsByType`: the records of one type, in stored order. */
  function TransactionsByType(txs: seq<Transaction>, t: TxType): (r: seq<Transaction>)
    ensures forall tx :: tx in r <==> tx in txs && tx.txType == t
    ensures forall tx :: multiset(r)[tx] == if tx.txType == t then multiset(txs)[tx] else 0
    ensures Seqs.IsSubsequence(r, txs)
  {
    var keep := (tx: Transaction) => tx.txType == t;
    Seqs.FilterIsSubsequence(txs, keep);
    Seqs.Filter(txs, keep)
  }

  /** The end index that `slice(0, end)` uses on a list of length `len`. */
  function SliceEnd(len: nat, end: int): (k: nat)
    ensures k <= len
  {
    if end >= 0 then (if end <= len then end else len)
    else if len + end >= 0 then len + end else 0
  }

  /** `getRecentTransactions(limit = 5)`: the first `limit` records of the sorted copy. */
  function RecentTransactions(txs: seq<Transaction>, limit: int := 5): (r: seq<Transaction>)
    ensures limit >= 0 ==> |r| <= limit && |r| == if limit <= |txs| then limit else |txs|
    ensures limit < 0 ==> |r| == if |txs| + limit >= 0 then |txs| + limit else 0
    ensures NewestFirst(r)
    ensures multiset(r) <= multiset(txs)
  {
    var sorted := SortByDateDesc(txs);
    var k := SliceEnd(|sorted|, limit);
    assert |sorted[..k]| == k;
    assert sorted == sorted[..k] + sorted[k..];
    sorted[..k]
  }

  /**
   * What `getRecentTransactions` leaves out is never newer than what it
   * returns.
   */
  lemma RecentAreNewest(txs: seq<Transaction>, limit: int, x: Transaction, y: Transaction)
    requires x in RecentTransactions(txs, limit)
    requires y in txs && y !in RecentTransactions(txs, limit)
    ensures x.date >= y.date
  {
    var sorted := SortByDateDesc(txs);
    var r := RecentTransactions(txs, limit);
    var k := |r|;
    assert r == sorted[..k];
    assert y in multiset(sorted);
    var j :| 0 <= j < |sorted| && sorted[j] == y;
    var i :| 0 <= i < k && r[i] == x;
    assert j >= k;
  }
}
