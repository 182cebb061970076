/**
 * The invoice list (src/components/InvoiceList.jsx): invoices sorted by
 * extracted number, newest first; a search filter; ten invoices per page.
 */
module InvoiceList {
  import opened Text
  import opened Seqs
  import opened InvoiceNumber
  import opened Records

  const ITEMS_PER_PAGE: nat := 10

  function Key(invoice: Invoice): nat {
    SortKey(invoice.invoiceNumber)
  }

  /** Non-increasing under `key`. */
  predicate DescendingBy<T>(s: seq<T>, key: T -> nat) {
    forall p, q | 0 <= p < q < |s| :: key(s[p]) >= key(s[q])
  }

  /** Descending by extracted number: the comparator `numB - numA`. */
  predicate Descending(s: seq<Invoice>) {
    DescendingBy(s, Key)
  }

  /**
   * `allInvoices.sort(...)` in `loadInvoices`: an insertion sort in place.
   * The result is the same invoices, largest key first.
   */
  method SortDescending<T>(a: array<T>, key: T -> nat)
    modifies a
    ensures DescendingBy(a[..], key)
    ensures multiset(a[..]) == multiset(old(a[..]))
  {
    var i := 0;
    while i < a.Length
      invariant 0 <= i <= a.Length
      invariant DescendingBy(a[..i], key)
      invariant multiset(a[..]) == multiset(old(a[..]))
    {
      InsertLast(a, i, key);
      i := i + 1;
    }
    assert a[..a.Length] == a[..];
  }

  /** One pass of the sort: `a[i]` moves left past every element with a smaller key. */
  method InsertLast<T>(a: array<T>, i: nat, key: T -> nat)
    requires i < a.Length && DescendingBy(a[..i], key)
    modifies a
    ensures DescendingBy(a[..i + 1], key)
    ensures multiset(a[..]) == multiset(old(a[..]))
  {
    var j := i;
    assert a[..i] == a[..i + 1][..i];
    while j > 0 && key(a[j - 1]) < key(a[j])
      invariant 0 <= j <= i
      invariant DescendingExcept(a[..], i, j, key)
      invariant Dominates(a[..], i, j, key)
      invariant multiset(a[..]) == multiset(old(a[..]))
    {
      ghost var before := a[..];
      a[j - 1], a[j] := a[j], a[j - 1];
      assert a[..] == Swapped(before, j);
      assert multiset(a[..]) == multiset(before);
      SwapStep(before, i, j, key);
      j := j - 1;
    }
    InsertDone(a[..], i, j, key);
  }

  /** The elements up to `i`, except the one at `j`, are in descending order. */
  predicate DescendingExcept<T>(s: seq<T>, i: nat, j: nat, key: T -> nat)
    requires i < |s|
  {
    forall p, q | 0 <= p < q <= i && p != j && q != j :: key(s[p]) >= key(s[q])
  }

  /** The element at `j` is at least every element after it up to `i`. */
  predicate Dominates<T>(s: seq<T>, i: nat, j: nat, key: T -> nat)
    requires j <= i < |s|
  {
    forall q | j < q <= i :: key(s[j]) >= key(s[q])
  }

  function Swapped<T>(s: seq<T>, j: nat): (t: seq<T>)
    requires 0 < j < |s|
    ensures multiset(t) == multiset(s)
  {
    s[j - 1 := s[j]][j := s[j - 1]]
  }

  /** Swapping the moving element one place left keeps both loop facts. */
  lemma {:induction false} SwapStep<T>(s: seq<T>, i: nat, j: nat, key: T -> nat)
    requires 0 < j <= i < |s|
    requires DescendingExcept(s, i, j, key) && Dominates(s, i, j, key)
    requires key(s[j - 1]) < key(s[j])
    ensures DescendingExcept(Swapped(s, j), i, j - 1, key)
    ensures Dominates(Swapped(s, j), i, j - 1, key)
  {
    var t := Swapped(s, j);
    forall p, q | 0 <= p < q <= i && p != j - 1 && q != j - 1
      ensures key(t[p]) >= key(t[q])
    {
      if q == j {
        assert t[q] == s[j - 1] && t[p] == s[p];
      } else if p == j {
        assert t[p] == s[j - 1] && t[q] == s[q];
      } else {
        assert t[p] == s[p] && t[q] == s[q];
      }
    }
  }

  /** When the moving element stops, the prefix up to `i` is descending. */
  lemma {:induction false} InsertDone<T>(s: seq<T>, i: nat, j: nat, key: T -> nat)
    requires j <= i < |s|
    requires DescendingExcept(s, i, j, key) && Dominates(s, i, j, key)
    requires j == 0 || key(s[j - 1]) >= key(s[j])
    ensures DescendingBy(s[..i + 1], key)
  {
    var t := s[..i + 1];
    forall p, q | 0 <= p < q < |t| ensures key(t[p]) >= key(t[q]) {
      if q == j {
        assert key(s[p]) >= key(s[j - 1]);
      }
    }
  }

  // ---------------------------------------------------------------------
  // Search

  /**
   * An invoice matches a lower-cased term when its number, customer or
   * sender name contains it ignoring case, or its date contains it as typed.
   */
  predicate Matches(invoice: Invoice, term: string)
    ensures term == "" ==> Matches(invoice, term)
  {
    assert term == "" ==> StartsWith(Lower(invoice.invoiceNumber), term);
    Contains(Lower(invoice.invoiceNumber), term) ||
    Contains(Lower(invoice.toName), term) ||
    Contains(Lower(invoice.fromName), term) ||
    Contains(invoice.invoiceDate, term)
  }

  /**
   * The invoices a search term keeps, in list order: never more than the
   * list, and every invoice for an empty term.
   */
  function Search(invoices: seq<Invoice>, searchTerm: string): (r: seq<Invoice>)
    ensures |r| <= |invoices|
    ensures searchTerm == "" ==> r == invoices
  {
    var term := Lower(searchTerm);
    var keep := (inv: Invoice) => Matches(inv, term);
    assert searchTerm == "" ==> Filter(keep, invoices) == invoices by {
      if searchTerm == "" {
        FilterAllKept(keep, invoices);
      }
    }
    Filter(keep, invoices)
  }

  lemma {:induction false} SearchSpec(invoices: seq<Invoice>, searchTerm: string)
    ensures Subsequence(Search(invoices, searchTerm), invoices)
    ensures forall inv | inv in Search(invoices, searchTerm) :: Matches(inv, Lower(searchTerm))
    ensures forall inv | inv in invoices && Matches(inv, Lower(searchTerm)) :: inv in Search(invoices, searchTerm)
  {
    var term := Lower(searchTerm);
    var keep := (inv: Invoice) => Matches(inv, term);
    FilterIsSubsequence(keep, invoices);
  }

  /** The number is matched whatever the case of the term. */
  lemma {:induction false} SearchIgnoresCase(invoice: Invoice, searchTerm: string)
    requires Contains(Lower(invoice.invoiceNumber), Lower(searchTerm))
    ensures invoice in Search([invoice], searchTerm)
  {
    SearchSpec([invoice], searchTerm);
  }

  // ---------------------------------------------------------------------
  // Pages

  /** `Math.ceil(n / 10)`. */
  function TotalPages(n: nat): (pages: nat)
    ensures pages * ITEMS_PER_PAGE >= n
    ensures pages > 0 ==> (pages - 1) * ITEMS_PER_PAGE < n
    ensures pages == 0 <==> n == 0
  {
    (n + ITEMS_PER_PAGE - 1) / ITEMS_PER_PAGE
  }

  /** `(currentPage - 1) * 10`. */
  function PageStart(page: nat): nat
    requires page >= 1
  {
    (page - 1) * ITEMS_PER_PAGE
  }

  /** `filteredInvoices.slice(startIndex, startIndex + 10)`. */
  function Page<T>(list: seq<T>, page: nat): (r: seq<T>)
    requires page >= 1
    ensures |r| <= ITEMS_PER_PAGE
    ensures PageStart(page) <= |list| ==>
              r == list[PageStart(page)..if PageStart(page) + ITEMS_PER_PAGE <= |list| then PageStart(page) + ITEMS_PER_PAGE else |list|]
    ensures PageStart(page) >= |list| ==> r == []
  {
    Slice(list, PageStart(page), PageStart(page) + ITEMS_PER_PAGE)
  }

  /** Pages 1 to `count`, one after another. */
  function PagesUpTo<T>(list: seq<T>, count: nat): seq<T> {
    if count == 0 then [] else PagesUpTo(list, count - 1) + Page(list, count)
  }

  lemma {:induction false} PagesUpToPrefix<T>(list: seq<T>, count: nat)
    ensures PagesUpTo(list, count) ==
            list[..if count * ITEMS_PER_PAGE <= |list| then count * ITEMS_PER_PAGE else |list|]
  {
    if count > 0 {
      PagesUpToPrefix(list, count - 1);
      var start := (count - 1) * ITEMS_PER_PAGE;
      if start <= |list| {
        var end := if start + ITEMS_PER_PAGE <= |list| then start + ITEMS_PER_PAGE else |list|;
        assert list[..start] + list[start..end] == list[..end];
      }
    }
  }

  /** Every invoice is on exactly one page: pages 1 to TotalPages give back the list. */
  lemma {:induction false} PagesCoverList<T>(list: seq<T>)
    ensures PagesUpTo(list, TotalPages(|list|)) == list
  {
    PagesUpToPrefix(list, TotalPages(|list|));
  }

  /** The last page is never empty and never has more than ten invoices. */
  lemma {:induction false} LastPageNonEmpty<T>(list: seq<T>)
    requires list != []
    ensures 1 <= |Page(list, TotalPages(|list|))| <= ITEMS_PER_PAGE
  {
  }

  // ---------------------------------------------------------------------
  // The list's state

  class InvoiceListState {
    var invoices: seq<Invoice>
    var filteredInvoices: seq<Invoice>
    var searchTerm: string
    var currentPage: nat
    var pageDirection: int

    predicate Valid()
      reads this
    {
      currentPage >= 1
    }

    constructor ()
      ensures Valid() && invoices == [] && filteredInvoices == [] && searchTerm == ""
      ensures currentPage == 1 && pageDirection == 0
    {
      invoices, filteredInvoices, searchTerm := [], [], "";
      currentPage, pageDirection := 1, 0;
    }

    /** The invoices on the current page. */
    function Shown(): (r: seq<Invoice>)
      reads this
      requires Valid()
      ensures |r| <= ITEMS_PER_PAGE
    {
      Page(filteredInvoices, currentPage)
    }

    /**
     * `filterInvoices`: a blank term shows every invoice and keeps the
     * page; any other term keeps the matching invoices and returns to page 1.
     */
    method FilterInvoices()
      requires Valid()
      modifies this
      ensures Valid()
      ensures IsBlank(searchTerm) ==> filteredInvoices == invoices && currentPage == old(currentPage)
      ensures !IsBlank(searchTerm) ==> filteredInvoices == Search(invoices, searchTerm) && currentPage == 1
      ensures Subsequence(filteredInvoices, invoices)
      ensures invoices == old(invoices) && searchTerm == old(searchTerm) && pageDirection == old(pageDirection)
    {
      if Trim(searchTerm) == "" {
        filteredInvoices := invoices;
        SubsequenceRefl(invoices);
        return;
      }
      SearchSpec(invoices, searchTerm);
      filteredInvoices := Search(invoices, searchTerm);
      currentPage := 1;
    }

    /** `loadInvoices`, followed by the filter effect the new list triggers. */
    method LoadInvoices(all: array<Invoice>)
      requires Valid()
      modifies this, all
      ensures Valid()
      ensures Descending(invoices) && multiset(invoices) == multiset(old(all[..]))
      ensures IsBlank(searchTerm) ==> filteredInvoices == invoices && currentPage == old(currentPage)
      ensures !IsBlank(searchTerm) ==> filteredInvoices == Search(invoices, searchTerm) && currentPage == 1
      ensures searchTerm == old(searchTerm) && pageDirection == old(pageDirection)
    {
      SortDescending(all, Key);
      invoices := all[..];
      FilterInvoices();
    }

    /** Typing into the search box, followed by the filter effect. */
    method SetSearchTerm(term: string)
      requires Valid()
      modifies this
      ensures Valid() && searchTerm == term && invoices == old(invoices) && pageDirection == old(pageDirection)
      ensures IsBlank(term) ==> filteredInvoices == invoices && currentPage == old(currentPage)
      ensures !IsBlank(term) ==> filteredInvoices == Search(invoices, term) && currentPage == 1
    {
      searchTerm := term;
      FilterInvoices();
    }

    /**
     * `handlePageChange`: a page outside 1..TotalPages changes nothing;
     * otherwise the page moves, forward (+1) when it grows, else back (-1).
     */
    method PageChange(newPage: int)
      requires Valid()
      modifies this
      ensures Valid()
      ensures !(1 <= newPage <= TotalPages(|filteredInvoices|)) ==>
                currentPage == old(currentPage) && pageDirection == old(pageDirection)
      ensures 1 <= newPage <= TotalPages(|filteredInvoices|) ==>
                currentPage == newPage && pageDirection == (if newPage > old(currentPage) then 1 else -1)
      ensures 1 <= newPage <= TotalPages(|filteredInvoices|) ==> Shown() != []
      ensures invoices == old(invoices) && filteredInvoices == old(filteredInvoices) && searchTerm == old(searchTerm)
    {
      if 1 <= newPage <= TotalPages(|filteredInvoices|) {
        pageDirection := if newPage > currentPage then 1 else -1;
        currentPage := newPage;
      }
    }
  }
}
