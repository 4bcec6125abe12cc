/**
 * The flagged-transaction review list: its row type, the visible-rows filter
 * (search over id, e-mail and category; status and risk facets) and the
 * summary cards computed over the whole list.
 */
module FlaggedTransactions {
  import opened Wrappers
  import opened TextUtil
  import opened FilterEngine

  datatype Status = Pending | Approved | Rejected
  {
    function Name(): string
    {
      match this
      case Pending => "pending"
      case Approved => "approved"
      case Rejected => "rejected"
    }
  }

  datatype FlaggedTransaction = FlaggedTransaction(
    id: string,
    transactionId: string,
    amount: real,
    paymentMethod: string,
    category: string,
    userEmail: string,
    fraudProbability: real,
    riskLevel: string,
    status: Status,
    flaggedAt: string,
    reviewedBy: Option<string>,
    reviewedAt: Option<string>,
    riskFactors: seq<string>)

  /** The three controls above the list: search box, status select, risk select. */
  datatype TransactionFilter = TransactionFilter(searchTerm: string, statusFilter: string, riskFilter: string)

  const NoFilter := TransactionFilter("", "all", "all")

  /** The fields the search box looks at; the payment method is not among them. */
  function SearchedFields(t: FlaggedTransaction): seq<string>
  {
    [t.transactionId, t.userEmail, t.category]
  }

  /**
   * The predicate passed to `transactions.filter`. The initial controls pass
   * every row; a status or risk choice other than "all" passes only rows
   * whose status name, or lower-cased risk level, equals it.
   */
  predicate Matches(f: TransactionFilter, t: FlaggedTransaction)
    ensures f == NoFilter ==> Matches(f, t)
    ensures Matches(f, t) && f.statusFilter != "all" ==> t.status.Name() == f.statusFilter
    ensures Matches(f, t) && f.riskFilter != "all" ==> Lower(t.riskLevel) == f.riskFilter
  {
    EmptySearchHits(SearchedFields(t));
    && SearchHit(f.searchTerm, SearchedFields(t))
    && FacetPasses(f.statusFilter, t.status.Name())
    && FacetPasses(f.riskFilter, Lower(t.riskLevel))
  }

  /** The visible rows: every one matches the filter, and none is added. */
  function FilteredTransactions(rows: seq<FlaggedTransaction>, f: TransactionFilter): (r: seq<FlaggedTransaction>)
    ensures |r| <= |rows|
    ensures forall i :: 0 <= i < |r| ==> Matches(f, r[i])
  {
    KeepIsSubsequence(rows, t => Matches(f, t));
    Keep(rows, t => Matches(f, t))
  }

  /**
   * The visible rows are exactly the rows matching search, status and risk,
   * in list order, each as many times as the list holds it.
   */
  lemma FilteredTransactionsContract(rows: seq<FlaggedTransaction>, f: TransactionFilter)
    ensures forall t :: t in FilteredTransactions(rows, f) <==> t in rows && Matches(f, t)
    ensures IsSubsequence(FilteredTransactions(rows, f), rows)
    ensures forall t :: multiset(FilteredTransactions(rows, f))[t] == if Matches(f, t) then multiset(rows)[t] else 0
    ensures |FilteredTransactions(rows, f)| + |Keep(rows, t => !Matches(f, t))| == |rows|
  {
    KeepMultiplicity(rows, t => Matches(f, t));
    KeepComplement(rows, t => Matches(f, t), t => !Matches(f, t));
    forall t ensures t in FilteredTransactions(rows, f) <==> t in rows && Matches(f, t) {
      KeepMembership(rows, t => Matches(f, t), t);
    }
    KeepIsSubsequence(rows, t => Matches(f, t));
  }

  /** The search clause in terms of the three searched fields. */
  lemma SearchClause(f: TransactionFilter, t: FlaggedTransaction)
    ensures SearchHit(f.searchTerm, SearchedFields(t)) <==>
      Contains(Lower(t.transactionId), Lower(f.searchTerm)) ||
      Contains(Lower(t.userEmail), Lower(f.searchTerm)) ||
      Contains(Lower(t.category), Lower(f.searchTerm))
  {
    var fs := SearchedFields(t);
    if Contains(Lower(t.transactionId), Lower(f.searchTerm)) {
      assert Contains(Lower(fs[0]), Lower(f.searchTerm));
    }
    if Contains(Lower(t.userEmail), Lower(f.searchTerm)) {
      assert Contains(Lower(fs[1]), Lower(f.searchTerm));
    }
    if Contains(Lower(t.category), Lower(f.searchTerm)) {
      assert Contains(Lower(fs[2]), Lower(f.searchTerm));
    }
  }

  /** With an empty search and both selects on "all", every row is shown, in order. */
  lemma NoFilterShowsAll(rows: seq<FlaggedTransaction>)
    ensures FilteredTransactions(rows, NoFilter) == rows
  {
    forall i | 0 <= i < |rows| ensures Matches(NoFilter, rows[i]) {
      EmptySearchHits(SearchedFields(rows[i]));
    }
    KeepAll(rows, t => Matches(NoFilter, t));
  }

  /** Applying the same filter to the visible rows changes nothing. */
  lemma FilterIdempotent(rows: seq<FlaggedTransaction>, f: TransactionFilter)
    ensures FilteredTransactions(FilteredTransactions(rows, f), f) == FilteredTransactions(rows, f)
  {
    KeepIdempotent(rows, t => Matches(f, t));
  }

  /** The risk select's value is compared as it is: a value with an upper-case letter shows nothing. */
  lemma UpperCaseRiskFilterShowsNothing(rows: seq<FlaggedTransaction>, f: TransactionFilter, k: nat)
    requires k < |f.riskFilter| && 'A' <= f.riskFilter[k] <= 'Z'
    ensures FilteredTransactions(rows, f) == []
  {
    forall i | 0 <= i < |rows| ensures !Matches(f, rows[i]) {
      var low := Lower(rows[i].riskLevel);
      if k < |low| {
        assert low[k] == LowerChar(rows[i].riskLevel[k]);
      }
      assert f.riskFilter != low;
    }
    KeepNone(rows, t => Matches(f, t));
  }

  // Summary cards, all computed over the full list, whatever the filters are.

  /** The pending card: zero iff no row is pending, the total iff every row is. */
  function PendingCount(rows: seq<FlaggedTransaction>): (n: nat)
    ensures n <= |rows|
    ensures n == 0 <==> forall i :: 0 <= i < |rows| ==> rows[i].status != Pending
    ensures n == |rows| <==> forall i :: 0 <= i < |rows| ==> rows[i].status == Pending
  {
    KeepEmptyIff(rows, (t: FlaggedTransaction) => t.status == Pending);
    KeepShrinks(rows, (t: FlaggedTransaction) => t.status == Pending);
    |Keep(rows, (t: FlaggedTransaction) => t.status == Pending)|
  }

  /** Counts the rows whose risk level is exactly "High" (case-sensitive). */
  function HighRiskCount(rows: seq<FlaggedTransaction>): (n: nat)
    ensures n <= |rows|
    ensures n == 0 <==> forall i :: 0 <= i < |rows| ==> rows[i].riskLevel != "High"
    ensures n == |rows| <==> forall i :: 0 <= i < |rows| ==> rows[i].riskLevel == "High"
  {
    KeepEmptyIff(rows, (t: FlaggedTransaction) => t.riskLevel == "High");
    KeepShrinks(rows, (t: FlaggedTransaction) => t.riskLevel == "High");
    |Keep(rows, (t: FlaggedTransaction) => t.riskLevel == "High")|
  }

  /** `transactions.reduce((sum, t) => sum + t.amount, 0)`; non-negative amounts give a non-negative total. */
  function TotalAmount(rows: seq<FlaggedTransaction>): (total: real)
    ensures (forall i :: 0 <= i < |rows| ==> rows[i].amount >= 0.0) ==> total >= 0.0
  {
    if rows == [] then 0.0 else TotalAmount(rows[..|rows| - 1]) + rows[|rows| - 1].amount
  }

  lemma {:induction false} TotalAmountAppend(a: seq<FlaggedTransaction>, b: seq<FlaggedTransaction>)
    ensures TotalAmount(a + b) == TotalAmount(a) + TotalAmount(b)
    decreases |b|
  {
    if b == [] {
      assert a + b == a;
    } else {
      assert (a + b)[..|a + b| - 1] == a + b[..|b| - 1];
      TotalAmountAppend(a, b[..|b| - 1]);
    }
  }

  /** The total amount is the amount of the rows a filter shows plus the amount of those it hides. */
  lemma {:induction false} TotalAmountSplits(rows: seq<FlaggedTransaction>, p: FlaggedTransaction -> bool)
    ensures TotalAmount(rows) == TotalAmount(Keep(rows, p)) + TotalAmount(Keep(rows, t => !p(t)))
  {
    if rows != [] {
      var head, tail := rows[..1], rows[1..];
      assert rows == head + tail;
      TotalAmountSplits(tail, p);
      TotalAmountAppend(head, tail);
      var kp := if p(rows[0]) then [rows[0]] else [];
      var kn := if !p(rows[0]) then [rows[0]] else [];
      assert Keep(rows, p) == kp + Keep(tail, p);
      assert Keep(rows, t => !p(t)) == kn + Keep(tail, t => !p(t));
      TotalAmountAppend(kp, Keep(tail, p));
      TotalAmountAppend(kn, Keep(tail, t => !p(t)));
      assert TotalAmount([rows[0]]) == rows[0].amount by {
        assert [rows[0]][..0] == [];
      }
    }
  }

  // The list the page starts with.

  const MockTransactions: seq<FlaggedTransaction> := [
    FlaggedTransaction("1", "TXN7504", 125000.0, "wallet", "electronics", "user_493@email.com", 97.59, "High", Pending,
      "2025-10-12 14:30", None, None,
      ["Above average transaction amount (>₹50K)", "Higher risk payment method: wallet",
       "High-risk category: electronics", "Weekend transaction"]),
    FlaggedTransaction("2", "TXN8934", 89000.0, "net_banking", "jewelry", "priya.sharma@email.com", 85.23, "High", Rejected,
      "2025-10-12 12:15", Some("Admin User"), Some("2025-10-12 12:45"),
      ["High transaction amount (>₹1L)", "High-risk category: jewelry",
       "New account (less than 1 month)", "Off-hours transaction"]),
    FlaggedTransaction("3", "TXN4521", 45000.0, "credit_card", "travel", "rahul.kumar@email.com", 72.15, "Medium", Approved,
      "2025-10-12 10:30", Some("Security Team"), Some("2025-10-12 11:15"),
      ["Above average transaction amount (>₹50K)", "Transaction from different city than usual",
       "Weekend transaction"]),
    FlaggedTransaction("4", "TXN2847", 156000.0, "wallet", "electronics", "anita.singh@email.com", 91.47, "High", Pending,
      "2025-10-12 09:45", None, None,
      ["Very high transaction amount (>₹2L)", "Higher risk payment method: wallet",
       "High-risk category: electronics", "Transaction from new/unrecognized device",
       "Multiple failed authentication attempts"]),
    FlaggedTransaction("5", "TXN6789", 34000.0, "upi", "clothing", "vikram.gupta@email.com", 68.92, "Medium", Pending,
      "2025-10-12 08:20", None, None,
      ["Above average transaction amount (>₹50K)", "Late night/early morning transaction",
       "New account (less than 3 months)"])
  ]

  /** The summary cards of the initial list. */
  lemma MockSummary()
    ensures |MockTransactions| == 5
    ensures PendingCount(MockTransactions) == 3
    ensures HighRiskCount(MockTransactions) == 3
    ensures TotalAmount(MockTransactions) == 449000.0
  {
    var m := MockTransactions;
    assert TotalAmount(m[..1]) == 125000.0 by { assert m[..1][..0] == []; }
    assert TotalAmount(m[..2]) == 214000.0 by { assert m[..2][..1] == m[..1]; }
    assert TotalAmount(m[..3]) == 259000.0 by { assert m[..3][..2] == m[..2]; }
    assert TotalAmount(m[..4]) == 415000.0 by { assert m[..4][..3] == m[..3]; }
    assert m[..5][..4] == m[..4] && m[..5] == m;
  }

  /**
   * The payment method plays no part in the filter: a search for "wallet" can only
   * find rows whose id, e-mail or category contain it.
   */
  lemma PaymentMethodNotSearched(f: TransactionFilter, t: FlaggedTransaction, pm: string)
    ensures Matches(f, t) <==> Matches(f, t.(paymentMethod := pm))
  {
    assert SearchedFields(t) == SearchedFields(t.(paymentMethod := pm));
  }

  /** A search term that none of id, e-mail and category includes hides the row. */
  lemma UnsearchedTermHidesRow(f: TransactionFilter, t: FlaggedTransaction)
    requires !Contains(Lower(t.transactionId), Lower(f.searchTerm))
    requires !Contains(Lower(t.userEmail), Lower(f.searchTerm))
    requires !Contains(Lower(t.category), Lower(f.searchTerm))
    ensures !Matches(f, t)
  {
    SearchClause(f, t);
  }
}
