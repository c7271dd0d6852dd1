/** The dashboard: statistics over the stored receipts, the search and
    status filters over the receipt list, the ten rows shown, the success
    rate and customer count cards, and deletion from the list. */
module Dashboard {
  import opened Types
  import opened Strings
  import ById
  import Storage

  // ---------------------------------------------------------------------
  // Statistics

  /** `receipts.filter(r => r.status === s).length`. */
  function CountStatus(rs: seq<Receipt>, s: ReceiptStatus): (n: nat)
    ensures n <= |rs|
  {
    if rs == [] then 0 else (if rs[0].status == s then 1 else 0) + CountStatus(rs[1..], s)
  }

  /** `receipts.filter(r => r.paymentMethod === m).length`. */
  function CountPayment(rs: seq<Receipt>, m: PaymentMethod): (n: nat)
    ensures n <= |rs|
  {
    if rs == [] then 0 else (if rs[0].paymentMethod == m then 1 else 0) + CountPayment(rs[1..], m)
  }

  /** The sum of `total` over the completed receipts. */
  function Revenue(rs: seq<Receipt>): real
  {
    if rs == [] then 0.0 else (if rs[0].status == Completed then rs[0].total else 0.0) + Revenue(rs[1..])
  }

  datatype Stats = Stats(
    totalReceipts: nat,
    totalRevenue: real,
    completedReceipts: nat,
    refundedReceipts: nat,
    partialRefunds: nat,
    cashPayments: nat,
    cardPayments: nat)

  const EmptyStats := Stats(0, 0.0, 0, 0, 0, 0, 0)

  /** The statistics `loadReceipts` computes. */
  function ComputeStats(rs: seq<Receipt>): (st: Stats)
    ensures st.totalReceipts == |rs|
    ensures st.completedReceipts <= st.totalReceipts && st.cashPayments + st.cardPayments <= st.totalReceipts
  {
    CashCardBound(rs);
    Stats(|rs|, Revenue(rs), CountStatus(rs, Completed), CountStatus(rs, Refunded),
      CountStatus(rs, PartialRefund), CountPayment(rs, Cash), CountPayment(rs, Card))
  }

  lemma {:induction false} CashCardBound(rs: seq<Receipt>)
    ensures CountPayment(rs, Cash) + CountPayment(rs, Card) <= |rs|
  {
    if rs != [] {
      CashCardBound(rs[1..]);
    }
  }

  /** Every receipt has exactly one of the three statuses, so the three
      status counts add up to the number of receipts. */
  lemma {:induction false} StatusCountsPartition(rs: seq<Receipt>)
    ensures CountStatus(rs, Completed) + CountStatus(rs, Refunded) + CountStatus(rs, PartialRefund) == |rs|
  {
    if rs != [] {
      StatusCountsPartition(rs[1..]);
    }
  }

  /** Only completed receipts count towards revenue: one that is refunded
      or partly refunded adds nothing, wherever it sits. */
  lemma {:induction false} RevenueIgnoresRefunds(a: seq<Receipt>, r: Receipt, b: seq<Receipt>)
    requires r.status != Completed
    ensures Revenue(a + [r] + b) == Revenue(a + b)
  {
    if a == [] {
      assert a + [r] + b == [r] + b;
      assert ([r] + b)[1..] == b;
      assert a + b == b;
    } else {
      RevenueIgnoresRefunds(a[1..], r, b);
      assert (a + [r] + b)[0] == a[0] && (a + [r] + b)[1..] == a[1..] + [r] + b;
      assert (a + b)[0] == a[0] && (a + b)[1..] == a[1..] + b;
    }
  }

  /** With non-negative totals the revenue is non-negative and at most the
      sum over all receipts. */
  lemma {:induction false} RevenueBounds(rs: seq<Receipt>)
    requires forall i :: 0 <= i < |rs| ==> rs[i].total >= 0.0
    ensures 0.0 <= Revenue(rs) <= SumTotals(rs)
  {
    if rs != [] {
      RevenueBounds(rs[1..]);
    }
  }

  function SumTotals(rs: seq<Receipt>): real
  {
    if rs == [] then 0.0 else rs[0].total + SumTotals(rs[1..])
  }

  /** When every receipt is completed, revenue is the sum of every total. */
  lemma {:induction false} AllCompletedRevenue(rs: seq<Receipt>)
    requires forall i :: 0 <= i < |rs| ==> rs[i].status == Completed
    ensures Revenue(rs) == SumTotals(rs) && CountStatus(rs, Completed) == |rs|
  {
    if rs != [] {
      AllCompletedRevenue(rs[1..]);
    }
  }

  // ---------------------------------------------------------------------
  // Cards

  /** `Math.round(x)`: the nearest integer, halves rounding up. */
  function Round(x: real): (n: int)
    ensures (n as real) - 0.5 <= x < (n as real) + 0.5
  {
    (x + 0.5).Floor
  }

  /** The success-rate card: 0 with no receipts, else the completed share as
      a rounded percentage, which lies between 0 and 100. */
  function SuccessRate(completed: nat, total: nat): (pct: int)
    requires completed <= total
    ensures total == 0 ==> pct == 0
    ensures 0 <= pct <= 100
    ensures total > 0 ==> (pct as real) - 0.5 <= 100.0 * (completed as real) / (total as real) < (pct as real) + 0.5
  {
    if total > 0 then
      var x := 100.0 * (completed as real) / (total as real);
      PercentBounds(completed as real, total as real);
      Round(x)
    else 0
  }

  lemma PercentBounds(c: real, t: real)
    requires 0.0 <= c <= t && 0.0 < t
    ensures 0.0 <= 100.0 * c / t <= 100.0
  {
    var q := 100.0 * c / t;
    assert q * t == 100.0 * c;
  }

  /** `new Set(receipts.map(r => r.customerEmail)).size`. */
  function UniqueCustomers(rs: seq<Receipt>): (n: nat)
  {
    |Emails(rs)|
  }

  function Emails(rs: seq<Receipt>): set<string>
  {
    set i | 0 <= i < |rs| :: rs[i].customerEmail
  }

  /** There are never more customers than receipts, and at least one as soon
      as there is a receipt. */
  lemma {:induction false} UniqueCustomersBounds(rs: seq<Receipt>)
    ensures UniqueCustomers(rs) <= |rs|
    ensures rs != [] ==> UniqueCustomers(rs) >= 1
  {
    if rs != [] {
      var init := rs[..|rs| - 1];
      UniqueCustomersBounds(init);
      assert Emails(rs) == Emails(init) + {rs[|rs| - 1].customerEmail} by {
        forall e | e in Emails(rs) ensures e in Emails(init) + {rs[|rs| - 1].customerEmail} {
          var i :| 0 <= i < |rs| && rs[i].customerEmail == e;
          if i < |rs| - 1 {
            assert init[i] == rs[i];
          }
        }
        forall e | e in Emails(init) ensures e in Emails(rs) {
          var i :| 0 <= i < |init| && init[i].customerEmail == e;
          assert rs[i] == init[i];
        }
      }
      assert rs[|rs| - 1].customerEmail in Emails(rs);
    }
  }

  /** Receipts sharing one address count as one customer. */
  lemma SameEmailOneCustomer(rs: seq<Receipt>, email: string)
    requires rs != [] && forall i :: 0 <= i < |rs| ==> rs[i].customerEmail == email
    ensures UniqueCustomers(rs) == 1
  {
    assert Emails(rs) == {email} by {
      assert rs[0].customerEmail in Emails(rs);
    }
  }

  // ---------------------------------------------------------------------
  // Filters

  /** `s.filter(p)`. */
  function Keep(s: seq<Receipt>, p: Receipt -> bool): (r: seq<Receipt>)
  {
    if s == [] then [] else if p(s[0]) then [s[0]] + Keep(s[1..], p) else Keep(s[1..], p)
  }

  /** What a filter keeps: exactly the elements satisfying the test, in
      their original order. */
  lemma {:induction false} KeepSpec(s: seq<Receipt>, p: Receipt -> bool)
    ensures ById.IsSubsequence(Keep(s, p), s)
    ensures forall x :: x in Keep(s, p) <==> x in s && p(x)
  {
    if s != [] {
      KeepSpec(s[1..], p);
      var rest := Keep(s[1..], p);
      if p(s[0]) {
        assert ([s[0]] + rest)[1..] == rest;
        assert forall x :: x in [s[0]] + rest <==> x == s[0] || x in rest;
      } else {
        ById.SubsequenceDropHead(rest, s);
      }
    }
  }

  /** A filter whose test holds everywhere keeps everything. */
  lemma {:induction false} KeepAll(s: seq<Receipt>, p: Receipt -> bool)
    requires forall i :: 0 <= i < |s| ==> p(s[i])
    ensures Keep(s, p) == s
  {
    if s != [] {
      KeepAll(s[1..], p);
    }
  }

  /** The search test: the lower-cased number, name or e-mail contains the
      lower-cased term. */
  predicate MatchesSearch(r: Receipt, term: string)
  {
    Contains(Lower(r.receiptNumber), Lower(term))
    || Contains(Lower(r.customerName), Lower(term))
    || Contains(Lower(r.customerEmail), Lower(term))
  }

  /** The status test against the selected option. */
  predicate MatchesStatus(r: Receipt, statusFilter: string)
  {
    StatusName(r.status) == statusFilter
  }

  /** The list the filter effect produces. */
  function Filtered(rs: seq<Receipt>, term: string, statusFilter: string): seq<Receipt>
  {
    var bySearch := if term != "" then Keep(rs, r => MatchesSearch(r, term)) else rs;
    if statusFilter != "all" then Keep(bySearch, r => MatchesStatus(r, statusFilter)) else bySearch
  }

  /** The filtered list is an order-preserving subsequence of the receipts,
      and a receipt is in it exactly when it is stored and passes both the
      search (when a term is entered) and the status filter (unless it is
      `all`). */
  lemma FilteredSpec(rs: seq<Receipt>, term: string, statusFilter: string)
    ensures ById.IsSubsequence(Filtered(rs, term, statusFilter), rs)
    ensures forall r :: r in Filtered(rs, term, statusFilter) <==>
      r in rs && (term == "" || MatchesSearch(r, term)) && (statusFilter == "all" || MatchesStatus(r, statusFilter))
  {
    var p := (r: Receipt) => MatchesSearch(r, term);
    var q := (r: Receipt) => MatchesStatus(r, statusFilter);
    var bySearch := if term != "" then Keep(rs, p) else rs;
    if term != "" {
      KeepSpec(rs, p);
    } else {
      ById.SubsequenceRefl(rs);
    }
    if statusFilter != "all" {
      KeepSpec(bySearch, q);
      ById.SubsequenceTrans(Keep(bySearch, q), bySearch, rs);
    }
  }

  /** With no term and the `all` option the filter shows every receipt. */
  lemma NoFilterShowsAll(rs: seq<Receipt>)
    ensures Filtered(rs, "", "all") == rs
  {
  }

  /** Every receipt matches the empty term once lower-cased, so an empty
      search would keep everything even if it were applied. */
  lemma {:induction false} EmptySearchKeepsAll(rs: seq<Receipt>)
    ensures Keep(rs, r => MatchesSearch(r, "")) == rs
  {
    forall i | 0 <= i < |rs| ensures MatchesSearch(rs[i], "") {
      ContainsEmpty(Lower(rs[i].receiptNumber));
    }
    KeepAll(rs, r => MatchesSearch(r, ""));
  }

  /** `filteredReceipts.slice(0, 10)`: the first ten rows at most. */
  function Visible(rs: seq<Receipt>): (v: seq<Receipt>)
    ensures |v| <= 10 && |v| == if |rs| < 10 then |rs| else 10
    ensures v == rs[..|v|]
  {
    if |rs| <= 10 then rs else rs[..10]
  }

  // ---------------------------------------------------------------------
  // The screen

  class DashboardView {
    var receipts: seq<Receipt>
    var filteredReceipts: seq<Receipt>
    var searchTerm: string
    var statusFilter: string
    var stats: Stats

    /** The screen as first rendered. */
    constructor()
      ensures receipts == [] && filteredReceipts == [] && searchTerm == "" && statusFilter == "all"
      ensures stats == EmptyStats
    {
      receipts := [];
      filteredReceipts := [];
      searchTerm := "";
      statusFilter := "all";
      stats := EmptyStats;
    }

    /** The filter effect: the search filter when a term is entered, then
        the status filter unless `all` is selected. */
    method ApplyFilters()
      modifies this
      ensures filteredReceipts == Filtered(receipts, searchTerm, statusFilter)
      ensures ById.IsSubsequence(filteredReceipts, receipts)
      ensures forall r :: r in filteredReceipts <==>
        r in receipts && (searchTerm == "" || MatchesSearch(r, searchTerm))
        && (statusFilter == "all" || MatchesStatus(r, statusFilter))
      ensures receipts == old(receipts) && searchTerm == old(searchTerm)
      ensures statusFilter == old(statusFilter) && stats == old(stats)
    {
      FilteredSpec(receipts, searchTerm, statusFilter);
      var filtered := receipts;
      if searchTerm != "" {
        var term := searchTerm;
        filtered := Keep(filtered, r => MatchesSearch(r, term));
      }
      if statusFilter != "all" {
        var option := statusFilter;
        filtered := Keep(filtered, r => MatchesStatus(r, option));
      }
      filteredReceipts := filtered;
    }

    /** `loadReceipts`: the stored receipts and their statistics, then the
        filter effect. */
    method LoadReceipts(store: Storage.Store)
      modifies this
      ensures receipts == store.GetReceipts() && stats == ComputeStats(receipts)
      ensures stats.completedReceipts + stats.refundedReceipts + stats.partialRefunds == stats.totalReceipts
      ensures filteredReceipts == Filtered(receipts, searchTerm, statusFilter)
      ensures searchTerm == old(searchTerm) && statusFilter == old(statusFilter)
    {
      receipts := store.GetReceipts();
      StatusCountsPartition(receipts);
      stats := ComputeStats(receipts);
      ApplyFilters();
    }

    /** Typing in the search box, then the filter effect. */
    method SetSearchTerm(term: string)
      modifies this
      ensures searchTerm == term && filteredReceipts == Filtered(receipts, term, statusFilter)
      ensures receipts == old(receipts) && statusFilter == old(statusFilter) && stats == old(stats)
    {
      searchTerm := term;
      ApplyFilters();
    }

    /** Choosing a status option, then the filter effect. */
    method SetStatusFilter(option: string)
      modifies this
      ensures statusFilter == option && filteredReceipts == Filtered(receipts, searchTerm, option)
      ensures receipts == old(receipts) && searchTerm == old(searchTerm) && stats == old(stats)
    {
      statusFilter := option;
      ApplyFilters();
    }

    /** `handleDeleteReceipt`: on confirmation, delete from the store and
        drop every receipt with that id from the list, then the filter
        effect. The statistics are not recomputed. */
    method HandleDeleteReceipt(store: Storage.Store, id: string, confirmed: bool)
      modifies this, store
      ensures !confirmed ==>
        receipts == old(receipts) && store.data == old(store.data) && filteredReceipts == old(filteredReceipts)
      ensures confirmed ==>
        && receipts == ById.RemoveId(old(receipts), Storage.ReceiptId, id)
        && store.data == old(store.data)[Storage.ReceiptsKey :=
             Storage.ReceiptList(ById.RemoveId(old(store.GetReceipts()), Storage.ReceiptId, id))]
        && filteredReceipts == Filtered(receipts, searchTerm, statusFilter)
        && (forall r :: r in receipts <==> r in old(receipts) && r.id != id)
        && ById.IsSubsequence(receipts, old(receipts))
      ensures stats == old(stats) && searchTerm == old(searchTerm) && statusFilter == old(statusFilter)
    {
      if !confirmed {
        return;
      }
      store.DeleteReceipt(id);
      ById.RemoveIdSpec(receipts, Storage.ReceiptId, id);
      receipts := ById.RemoveId(receipts, Storage.ReceiptId, id);
      ApplyFilters();
    }
  }
}
