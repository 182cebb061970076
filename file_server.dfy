/**
 * The Express server's file-backed store (server.js). Each JSON file is one
 * field of `FileStore`: the invoice list, the item list, the company-name
 * list and the last-number record. A handler reads a file, changes the array
 * (push, index assignment, filter) and writes it back; the outcome of each
 * write is a parameter, and a failed write leaves the file as it was.
 * Timestamps and `Date.now()` ids are parameters too.
 */
module FileServer {
  import opened Wrappers
  import opened Text
  import opened Seqs
  import opened InvoiceNumber
  import opened Records

  /** An item update body: the fields it carries override the stored item's. */
  datatype ItemPatch = ItemPatch(id: Option<int>, name: Option<string>, rate: Option<real>)

  /** `{ ...item, ...patch }`. */
  function Merge(item: Item, patch: ItemPatch): (merged: Item)
    ensures merged.id == patch.id.GetOr(item.id)
    ensures merged.name == patch.name.GetOr(item.name)
    ensures merged.rate == patch.rate.GetOr(item.rate)
  {
    Item(patch.id.GetOr(item.id), patch.name.GetOr(item.name), patch.rate.GetOr(item.rate))
  }

  /** The number of company suggestions returned at most. */
  const SUGGESTION_LIMIT: nat := 10

  /**
   * A stored company name matches a search term when it contains it,
   * ignoring case; the empty term matches every name.
   */
  predicate MatchesTerm(company: string, term: string)
    ensures term == "" ==> MatchesTerm(company, term)
  {
    assert term == "" ==> StartsWith(Lower(company), Lower(term));
    Contains(Lower(company), Lower(term))
  }

  /**
   * `GET /api/companies/suggestions?q=term`: the first ten names when the
   * term is empty, otherwise the first ten names that contain the term,
   * ignoring case, in stored order.
   */
  function Suggestions(companies: seq<string>, term: string): (r: seq<string>)
    ensures |r| <= SUGGESTION_LIMIT
    ensures forall c | c in r :: c in companies
  {
    if term == "" then Slice(companies, 0, SUGGESTION_LIMIT)
    else Slice(Filter((c: string) => MatchesTerm(c, term), companies), 0, SUGGESTION_LIMIT)
  }

  /**
   * Suggestions are at most ten stored names, in stored order, each matching
   * the term; when fewer than ten come back, no matching name was left out.
   * They are exactly the first ten matching names (an empty term matches
   * every name, so it gives the first ten names).
   */
  lemma {:induction false} SuggestionsSpec(companies: seq<string>, term: string)
    ensures var m := Filter((c: string) => MatchesTerm(c, term), companies);
            Suggestions(companies, term) == m[..if |m| < SUGGESTION_LIMIT then |m| else SUGGESTION_LIMIT]
    ensures |Suggestions(companies, term)| <= SUGGESTION_LIMIT
    ensures Subsequence(Suggestions(companies, term), companies)
    ensures forall c | c in Suggestions(companies, term) :: MatchesTerm(c, term)
    ensures |Suggestions(companies, term)| < SUGGESTION_LIMIT ==>
              forall c | c in companies && MatchesTerm(c, term) :: c in Suggestions(companies, term)
  {
    var r := Suggestions(companies, term);
    if term == "" {
      var n := if |companies| < SUGGESTION_LIMIT then |companies| else SUGGESTION_LIMIT;
      assert r == companies[..n];
      PrefixIsSubsequence(companies, n);
      forall c | c in r ensures MatchesTerm(c, term) {
        EmptyTermMatches(c, term);
      }
      assert |r| < SUGGESTION_LIMIT ==> r == companies;
      var keep := (c: string) => MatchesTerm(c, term);
      forall k | 0 <= k < |companies| ensures keep(companies[k]) {
        EmptyTermMatches(companies[k], term);
      }
      FilterAllKept(keep, companies);
    } else {
      var keep := (c: string) => MatchesTerm(c, term);
      var matches := Filter(keep, companies);
      var n := if |matches| < SUGGESTION_LIMIT then |matches| else SUGGESTION_LIMIT;
      assert r == matches[..n];
      FilterIsSubsequence(keep, companies);
      PrefixIsSubsequence(matches, n);
      SubsequenceTrans(r, matches, companies);
      forall c | c in r ensures MatchesTerm(c, term) {
        var k :| 0 <= k < |r| && r[k] == c;
        assert matches[k] == c && c in matches;
        assert keep(c);
      }
      assert |r| < SUGGESTION_LIMIT ==> r == matches;
    }
  }

  lemma {:induction false} EmptyTermMatches(c: string, term: string)
    requires term == ""
    ensures MatchesTerm(c, term)
  {
    assert StartsWith(Lower(c), Lower(term));
  }

  class FileStore {
    /** invoices.json */
    var invoices: seq<Invoice>
    /** predefinedItems.json */
    var items: seq<Item>
    /** companies.json */
    var companies: seq<string>
    /** lastInvoiceNumber.json; `None` when missing or unreadable. */
    var counter: Option<nat>

    /** The files as the server creates them on first start. */
    constructor ()
      ensures invoices == [] && items == [] && companies == [] && counter == Some(0)
    {
      invoices, items, companies, counter := [], [], [], Some(0);
    }

    /** `GET /api/invoices/:invoiceNumber`: the first invoice with that number, or 404. */
    method GetInvoice(key: string) returns (status: nat, invoice: Option<Invoice>)
      ensures status == OK <==> HasInvoice(invoices, key)
      ensures status == NOT_FOUND <==> !HasInvoice(invoices, key)
      ensures invoice.Some? <==> status == OK
      ensures invoice.Some? ==> invoice.value == invoices[FindInvoice(invoices, key)]
    {
      var i := FindInvoice(invoices, key);
      if i == -1 {
        status, invoice := NOT_FOUND, None;
      } else {
        status, invoice := OK, Some(invoices[i]);
      }
    }

    /** `GET /api/invoices/last-number`: the stored number, 0 when missing or falsy. */
    method GetLastNumber() returns (lastNumber: nat)
      ensures lastNumber == LastNumber(counter)
      ensures counter.None? ==> lastNumber == 0
    {
      lastNumber := LastNumber(counter);
    }

    /** `GET /api/invoices/next-number`: last + 1. */
    method GetNextNumber() returns (nextNumber: nat)
      ensures nextNumber == LastNumber(counter) + 1
      ensures nextNumber >= 1
    {
      var lastNumber := GetLastNumber();
      nextNumber := lastNumber + 1;
    }

    /**
     * `POST /api/invoices`. A duplicate number answers 400 and changes
     * nothing. Otherwise the body, stamped with `savedAt`, is appended; if
     * the file write succeeds the counter is overwritten by the extracted
     * number when it is non-zero (and the counter write succeeds); if the
     * file write fails, 500 and nothing changes.
     */
    method CreateInvoice(body: Invoice, now: string, writeOk: bool, counterWriteOk: bool)
      returns (status: nat)
      modifies this
      ensures status == BAD_REQUEST <==> HasInvoice(old(invoices), body.invoiceNumber)
      ensures status != BAD_REQUEST ==> status == (if writeOk then OK else SERVER_ERROR)
      ensures status == OK ==> invoices == old(invoices) + [body.(savedAt := now)]
      ensures status == OK && counterWriteOk ==> counter == CommitCounter(old(counter), body.invoiceNumber)
      ensures status != OK ==> invoices == old(invoices)
      ensures status != OK || !counterWriteOk ==> counter == old(counter)
      ensures items == old(items) && companies == old(companies)
    {
      if HasInvoice(invoices, body.invoiceNumber) {
        return BAD_REQUEST;
      }
      var saved := body.(savedAt := now);
      if writeOk {
        invoices := invoices + [saved];
        var invoiceNum := Extract(body.invoiceNumber);
        if invoiceNum.Some? && invoiceNum.value != 0 && counterWriteOk {
          counter := Some(invoiceNum.value);
        }
        status := OK;
      } else {
        status := SERVER_ERROR;
      }
    }

    /**
     * `PUT /api/invoices/:invoiceNumber`. An unknown number answers 404.
     * Otherwise the first invoice with that number is replaced by the body,
     * which keeps the old `savedAt` (or `now` when it had none) and gets
     * `updatedAt := now`; the counter is never touched.
     */
    method UpdateInvoice(key: string, body: Invoice, now: string, writeOk: bool)
      returns (status: nat)
      modifies this
      ensures status == NOT_FOUND <==> !HasInvoice(old(invoices), key)
      ensures status != NOT_FOUND ==> status == (if writeOk then OK else SERVER_ERROR)
      ensures status == OK ==> HasInvoice(old(invoices), key) && invoices == UpdatedInvoices(old(invoices), key, body, now)
      ensures status != OK ==> invoices == old(invoices)
      ensures counter == old(counter) && items == old(items) && companies == old(companies)
    {
      var i := FindInvoice(invoices, key);
      if i == -1 {
        return NOT_FOUND;
      }
      var savedAt := if invoices[i].savedAt != "" then invoices[i].savedAt else now;
      var updated := body.(savedAt := savedAt, updatedAt := now);
      if writeOk {
        invoices := invoices[i := updated];
        status := OK;
      } else {
        status := SERVER_ERROR;
      }
    }

    /**
     * `DELETE /api/invoices/:invoiceNumber`: every invoice with that number is
     * removed; 404 when none was.
     */
    method DeleteInvoice(key: string, writeOk: bool) returns (status: nat)
      modifies this
      ensures status == NOT_FOUND <==> !HasInvoice(old(invoices), key)
      ensures status != NOT_FOUND ==> status == (if writeOk then OK else SERVER_ERROR)
      ensures status == OK ==> invoices == WithoutInvoice(old(invoices), key)
      ensures status != OK ==> invoices == old(invoices)
      ensures counter == old(counter) && items == old(items) && companies == old(companies)
    {
      var filtered := WithoutInvoice(invoices, key);
      WithoutInvoiceSpec(invoices, key);
      if |filtered| == |invoices| {
        return NOT_FOUND;
      }
      if writeOk {
        invoices := filtered;
        status := OK;
      } else {
        status := SERVER_ERROR;
      }
    }

    /** `POST /api/items`: the body is appended, with `newId` when it has no truthy id. */
    method CreateItem(body: Item, newId: int, writeOk: bool) returns (status: nat)
      modifies this
      ensures status == (if writeOk then OK else SERVER_ERROR)
      ensures status == OK ==>
                items == old(items) + [body.(id := if body.id != 0 then body.id else newId)]
      ensures status != OK ==> items == old(items)
      ensures invoices == old(invoices) && counter == old(counter) && companies == old(companies)
    {
      var newItem := body.(id := if body.id != 0 then body.id else newId);
      if writeOk {
        items := items + [newItem];
        status := OK;
      } else {
        status := SERVER_ERROR;
      }
    }

    /**
     * `PUT /api/items/:id`. The id is `parseInt` of the path segment (`None`
     * for NaN, which matches nothing). The first item with that id gets the
     * body's fields merged over its own.
     */
    method UpdateItem(itemId: Option<int>, patch: ItemPatch, writeOk: bool) returns (status: nat)
      modifies this
      ensures status == NOT_FOUND <==> itemId.None? || !HasItem(old(items), itemId.value)
      ensures status != NOT_FOUND ==> status == (if writeOk then OK else SERVER_ERROR)
      ensures status == OK ==>
                var i := FindItem(old(items), itemId.value);
                items == old(items)[i := Merge(old(items)[i], patch)]
      ensures status != OK ==> items == old(items)
      ensures invoices == old(invoices) && counter == old(counter) && companies == old(companies)
    {
      if itemId.None? {
        return NOT_FOUND;
      }
      var i := FindItem(items, itemId.value);
      if i == -1 {
        return NOT_FOUND;
      }
      if writeOk {
        items := items[i := Merge(items[i], patch)];
        status := OK;
      } else {
        status := SERVER_ERROR;
      }
    }

    /** `DELETE /api/items/:id`: every item with that id is removed; 404 when none was. */
    method DeleteItem(itemId: Option<int>, writeOk: bool) returns (status: nat)
      modifies this
      ensures status == NOT_FOUND <==> itemId.None? || !HasItem(old(items), itemId.value)
      ensures status != NOT_FOUND ==> status == (if writeOk then OK else SERVER_ERROR)
      ensures status == OK ==> items == WithoutItem(old(items), itemId.value)
      ensures status != OK ==> items == old(items)
      ensures invoices == old(invoices) && counter == old(counter) && companies == old(companies)
    {
      if itemId.None? {
        return NOT_FOUND;
      }
      var filtered := WithoutItem(items, itemId.value);
      WithoutItemSpec(items, itemId.value);
      if |filtered| == |items| {
        return NOT_FOUND;
      }
      if writeOk {
        items := filtered;
        status := OK;
      } else {
        status := SERVER_ERROR;
      }
    }

    /**
     * `POST /api/companies`. `name` is `req.body.name`, "" when absent or
     * empty: the handler then falls back to the body object, whose `trim`
     * throws, so it answers 500. A name is appended as sent (untrimmed) only
     * when it is new and not blank; otherwise the list is returned unchanged.
     */
    method AddCompany(name: string, writeOk: bool) returns (status: nat)
      modifies this
      ensures name == "" ==> status == SERVER_ERROR
      ensures name != "" && (name in old(companies) || IsBlank(name)) ==> status == OK
      ensures name != "" && name !in old(companies) && !IsBlank(name) ==>
                status == (if writeOk then OK else SERVER_ERROR)
      ensures companies == if name != "" && name !in old(companies) && !IsBlank(name) && writeOk
                           then old(companies) + [name] else old(companies)
      ensures invoices == old(invoices) && counter == old(counter) && items == old(items)
    {
      if name == "" {
        return SERVER_ERROR;
      }
      if name !in companies && Trim(name) != "" {
        if writeOk {
          companies := companies + [name];
          status := OK;
        } else {
          status := SERVER_ERROR;
        }
      } else {
        status := OK;
      }
    }

    /** `GET /api/companies/suggestions?q=term`. */
    method GetSuggestions(term: string) returns (suggestions: seq<string>)
      ensures suggestions == Suggestions(companies, term)
      ensures |suggestions| <= SUGGESTION_LIMIT && Subsequence(suggestions, companies)
    {
      suggestions := Suggestions(companies, term);
      SuggestionsSpec(companies, term);
    }
  }

  /**
   * The PUT handler never checks the body's number: with distinct numbers, a
   * successful update of `key` whose body carries the number of another
   * stored invoice leaves two invoices with that number.
   */
  lemma {:induction false} UpdateCanDuplicate(invoices: seq<Invoice>, key: string, body: Invoice, now: string, j: nat)
    requires DistinctNumbers(invoices) && HasInvoice(invoices, key)
    requires j < |invoices| && invoices[j].invoiceNumber == body.invoiceNumber && body.invoiceNumber != key
    ensures !DistinctNumbers(UpdatedInvoices(invoices, key, body, now))
  {
    var i := FindInvoice(invoices, key);
    var r := UpdatedInvoices(invoices, key, body, now);
    assert i != j;
    assert r[i].invoiceNumber == r[j].invoiceNumber;
    if i < j {
      assert !(r[i].invoiceNumber != r[j].invoiceNumber);
    } else {
      assert !(r[j].invoiceNumber != r[i].invoiceNumber);
    }
  }
}
