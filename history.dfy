/**
 * The history page: the transactions sorted newest first, then kept when
 * they match the search box and the type selector.
 */
module History {
  import opened Text
  import opened Ledger
  import opened LedgerQueries
  import Seqs

  /** The type selector: "all" or one transaction type. */
  datatype TypeFilter = All | OnlyType(t: TxType)

  /**
   * The search predicate as written: the recipient's name (ignoring case),
   * the recipient's phone (exactly) or the description (ignoring case)
   * contains the term. A missing field never matches, even an empty term.
   */
  predicate MatchesSearch(tx: Transaction, term: string) {
    || (tx.recipient.Some? && Contains(ToLower(tx.recipient.value.name), ToLower(term)))
    || (tx.recipient.Some? && Contains(tx.recipient.value.phone, term))
    || (tx.description.Some? && Contains(ToLower(tx.description.value), ToLower(term)))
  }

  /**
   * The search ignores the case of the letters it compares: two terms that
   * lower-case alike match the same records, unless one of them is found in
   * the recipient's phone, which is compared exactly.
   */
  lemma SearchIgnoresCase(tx: Transaction, a: string, b: string)
    requires ToLower(a) == ToLower(b)
    requires tx.recipient.Some? ==> !Contains(tx.recipient.value.phone, a) && !Contains(tx.recipient.value.phone, b)
    ensures MatchesSearch(tx, a) == MatchesSearch(tx, b)
  {
  }

  /** In particular a term and its upper- or lower-case spelling match the same records by name or description. */
  lemma SearchIgnoresCaseOfTerm(tx: Transaction, term: string)
    requires tx.recipient.Some? ==> !Contains(tx.recipient.value.phone, term) && !Contains(tx.recipient.value.phone, ToLower(term))
    ensures MatchesSearch(tx, term) == MatchesSearch(tx, ToLower(term))
  {
    ToLowerIdempotent(term);
    SearchIgnoresCase(tx, term, ToLower(term));
  }

  predicate MatchesType(tx: Transaction, f: TypeFilter) {
    f.All? || tx.txType == f.t
  }

  /** The records kept by `keep`, taken from the copy sorted newest first. */
  function SortedView(txs: seq<Transaction>, keep: Transaction -> bool): (r: seq<Transaction>)
    ensures forall tx :: tx in r <==> tx in txs && keep(tx)
    ensures forall tx :: multiset(r)[tx] == if keep(tx) then multiset(txs)[tx] else 0
    ensures Seqs.IsSubsequence(r, SortByDateDesc(txs))
    ensures NewestFirst(r)
  {
    var sorted := SortByDateDesc(txs);
    Seqs.FilterIsSubsequence(sorted, keep);
    SubsequenceNewestFirst(Seqs.Filter(sorted, keep), sorted);
    assert forall tx :: tx in sorted <==> tx in multiset(txs);
    Seqs.Filter(sorted, keep)
  }

  /** `filteredTransactions` as written. */
  function FilteredTransactions(txs: seq<Transaction>, term: string, f: TypeFilter): (r: seq<Transaction>)
    ensures forall tx :: tx in r <==> tx in txs && MatchesSearch(tx, term) && MatchesType(tx, f)
    ensures forall tx :: multiset(r)[tx] == if MatchesSearch(tx, term) && MatchesType(tx, f) then multiset(txs)[tx] else 0
    ensures Seqs.IsSubsequence(r, SortByDateDesc(txs))
    ensures NewestFirst(r)
  {
    SortedView(txs, tx => MatchesSearch(tx, term) && MatchesType(tx, f))
  }

  /** Deleting elements from a newest-first list leaves it newest first. */
  lemma {:induction false} SubsequenceNewestFirst(t: seq<Transaction>, s: seq<Transaction>)
    requires Seqs.IsSubsequence(t, s) && NewestFirst(s)
    ensures NewestFirst(t)
    decreases |s|
  {
    if t != [] {
      assert NewestFirst(s[1..]);
      if t[0] == s[0] && Seqs.IsSubsequence(t[1..], s[1..]) {
        SubsequenceNewestFirst(t[1..], s[1..]);
        Seqs.SubsequenceMembers(t[1..], s[1..]);
        if |t| > 1 {
          assert t[1] in t[1..];
          var j :| 0 <= j < |s[1..]| && s[1..][j] == t[1];
          assert s[j + 1] == t[1];
        }
        ConsNewestFirst(t[0], t[1..]);
        assert t == [t[0]] + t[1..];
      } else {
        SubsequenceNewestFirst(t, s[1..]);
      }
    }
  }

  /** A record with neither recipient nor description never matches, whatever the term. */
  lemma NoRecipientNoDescriptionNeverMatches(tx: Transaction, term: string)
    requires tx.recipient.None? && tx.description.None?
    ensures !MatchesSearch(tx, term)
  {
  }

  /** A record with a recipient, such as every transfer, matches the empty term. */
  lemma RecipientMatchesEmptyTerm(tx: Transaction)
    requires tx.recipient.Some?
    ensures MatchesSearch(tx, "")
  {
    ContainsEmpty(tx.recipient.value.phone);
  }

  /**
   * As written, the page never lists a deposit or a withdrawal that the
   * ledger recorded, whatever is typed in the search box and whichever type
   * is selected, even though it is in the history.
   */
  lemma LedgerDepositsNeverListed(l: LedgerState, op: Operation, term: string, f: TypeFilter)
    requires op.DepositOp? || op.WithdrawOp?
    requires Apply(l, true, op).outcome.Accepted?
    ensures RecordOf(op) in Apply(l, true, op).state.transactions
    ensures RecordOf(op) !in FilteredTransactions(Apply(l, true, op).state.transactions, term, f)
  {
    assert Apply(l, true, op).state.transactions[0] == RecordOf(op);
  }

  /** The search predicate as evidently intended: an empty search box matches every record. */
  predicate MatchesSearchCorrected(tx: Transaction, term: string) {
    term == [] || MatchesSearch(tx, term)
  }

  /** `filteredTransactions` with the corrected search predicate. */
  function FilteredTransactionsCorrected(txs: seq<Transaction>, term: string, f: TypeFilter): (r: seq<Transaction>)
    ensures forall tx :: tx in r <==> tx in txs && MatchesSearchCorrected(tx, term) && MatchesType(tx, f)
    ensures forall tx :: multiset(r)[tx] == if MatchesSearchCorrected(tx, term) && MatchesType(tx, f) then multiset(txs)[tx] else 0
    ensures Seqs.IsSubsequence(r, SortByDateDesc(txs))
    ensures NewestFirst(r)
    ensures term == [] && f == All ==> r == SortByDateDesc(txs)
    ensures term != [] ==> r == FilteredTransactions(txs, term, f)
  {
    var keep := (tx: Transaction) => MatchesSearchCorrected(tx, term) && MatchesType(tx, f);
    var sorted := SortByDateDesc(txs);
    if term == [] && f == All then
      Seqs.FilterKeepsAll(sorted, keep);
      SortedView(txs, keep)
    else
      assert term != [] ==> SortedView(txs, keep) == FilteredTransactions(txs, term, f) by {
        if term != [] {
          FilterSameOn(sorted, keep, (tx: Transaction) => MatchesSearch(tx, term) && MatchesType(tx, f));
        }
      }
      SortedView(txs, keep)
  }

  /** Filters that agree on every element of the list give the same result. */
  lemma {:induction false} FilterSameOn(s: seq<Transaction>, p: Transaction -> bool, q: Transaction -> bool)
    requires forall i :: 0 <= i < |s| ==> p(s[i]) == q(s[i])
    ensures Seqs.Filter(s, p) == Seqs.Filter(s, q)
  {
    if s != [] {
      FilterSameOn(s[1..], p, q);
    }
  }

  /** With the correction, an empty search shows every recorded deposit and withdrawal. */
  lemma CorrectedListsLedgerDeposits(l: LedgerState, op: Operation)
    requires Apply(l, true, op).outcome.Accepted?
    ensures RecordOf(op) in FilteredTransactionsCorrected(Apply(l, true, op).state.transactions, "", All)
  {
    var txs := Apply(l, true, op).state.transactions;
    assert txs[0] == RecordOf(op);
    var r := FilteredTransactionsCorrected(txs, "", All);
    assert r == SortByDateDesc(txs);
    assert RecordOf(op) in multiset(txs);
  }
}
