/**
 * The invoice collection and the counter document that the Vite
 * middleware, the Vercel function and the Netlify function share, with the
 * create / update / delete rules the three handlers repeat word for word.
 *
 * The collection holds the stored invoices in insertion order; the unique
 * index on `invoiceNumber` is the invariant `Valid`. The counter document
 * `lastInvoiceNumber` is `None` until the first upsert. Whether a write
 * reaches the database is a parameter; a failed write throws, which the
 * handlers turn into 500, and leaves the data as it was.
 */
module DocumentStore {
  import opened Wrappers
  import opened InvoiceNumber
  import opened Records

  /**
   * What a POST answers and leaves behind, from the collection and counter
   * before (`invoices`, `counter`) to those after (`invoices'`, `counter'`).
   * A number already stored answers 400 and saves nothing. A failed save
   * answers 500 and saves nothing. A good save appends the body stamped with
   * `savedAt`; the counter rule then runs when the upsert succeeds, and a
   * failed upsert of a truthy number answers 500 with the invoice kept.
   */
  predicate CreateOutcome(invoices: seq<Invoice>, counter: Option<nat>,
                          invoices': seq<Invoice>, counter': Option<nat>,
                          body: Invoice, now: string, saveOk: bool, upsertOk: bool, status: nat)
  {
    && (status == BAD_REQUEST <==> HasInvoice(invoices, body.invoiceNumber))
    && (status == BAD_REQUEST || !saveOk ==> invoices' == invoices)
    && (status != BAD_REQUEST && saveOk ==> invoices' == invoices + [body.(savedAt := now)])
    && counter' == (if status != BAD_REQUEST && saveOk && upsertOk
                    then CommitCounter(counter, body.invoiceNumber)
                    else counter)
    && (status == SERVER_ERROR <==>
          status != BAD_REQUEST && (!saveOk || (!upsertOk && CommitCounter(None, body.invoiceNumber).Some?)))
    && status in {OK, BAD_REQUEST, SERVER_ERROR}
  }

  /**
   * What a PUT of `key` answers and leaves behind: 404 exactly when `key` is
   * not stored; otherwise 200 when the write succeeds and does not rename
   * onto another stored number, and 500 with nothing changed when it does.
   * On 200 the first slot with `key` gets the body, `savedAt` carried over
   * (`now` when it had none) and `updatedAt := now`. The counter never moves.
   */
  predicate UpdateOutcome(invoices: seq<Invoice>, counter: Option<nat>,
                          invoices': seq<Invoice>, counter': Option<nat>,
                          key: string, body: Invoice, now: string, updateOk: bool, status: nat)
  {
    && (status == NOT_FOUND <==> !HasInvoice(invoices, key))
    && (status != NOT_FOUND ==>
          status == if updateOk && (body.invoiceNumber == key || !HasInvoice(invoices, body.invoiceNumber))
                    then OK else SERVER_ERROR)
    && (status == OK ==> HasInvoice(invoices, key) && invoices' == UpdatedInvoices(invoices, key, body, now))
    && (status != OK ==> invoices' == invoices)
    && counter' == counter
  }

  /**
   * What a DELETE of `key` answers and leaves behind: 500 when the database
   * call fails, else 404 exactly when `key` is not stored; on 200 the
   * collection is the filter without `key`, one invoice shorter. The counter
   * never moves.
   */
  predicate DeleteOutcome(invoices: seq<Invoice>, counter: Option<nat>,
                          invoices': seq<Invoice>, counter': Option<nat>,
                          key: string, deleteOk: bool, status: nat)
  {
    && (!deleteOk ==> status == SERVER_ERROR)
    && (deleteOk ==> (status == NOT_FOUND <==> !HasInvoice(invoices, key)))
    && (deleteOk ==> status in {OK, NOT_FOUND})
    && (status == OK ==> invoices' == WithoutInvoice(invoices, key))
    && (status == OK ==> |invoices'| == |invoices| - 1 && !HasInvoice(invoices', key))
    && (status != OK ==> invoices' == invoices)
    && counter' == counter
  }

  class InvoiceCollection {
    var invoices: seq<Invoice>
    var counterDoc: Option<nat>

    predicate Valid()
      reads this
    {
      DistinctNumbers(invoices)
    }

    /** An empty database. */
    constructor ()
      ensures Valid() && invoices == [] && counterDoc == None
    {
      invoices, counterDoc := [], None;
    }

    /** `Invoice.findOne({ invoiceNumber: key })`. */
    method FindOne(key: string) returns (found: Option<Invoice>)
      ensures found.Some? <==> HasInvoice(invoices, key)
      ensures found.Some? ==> found.value == invoices[FindInvoice(invoices, key)] && found.value.invoiceNumber == key
    {
      var i := FindInvoice(invoices, key);
      found := if i == -1 then None else Some(invoices[i]);
    }

    /** The last-number branch: `doc ? doc.lastNumber : 0`. */
    method ReadLastNumber() returns (lastNumber: nat)
      ensures lastNumber == LastNumber(counterDoc)
      ensures counterDoc.None? ==> lastNumber == 0
    {
      lastNumber := if counterDoc.Some? then counterDoc.value else 0;
    }

    /** The next-number branch: last + 1. */
    method ReadNextNumber() returns (nextNumber: nat)
      ensures nextNumber == LastNumber(counterDoc) + 1 && nextNumber >= 1
    {
      var lastNumber := ReadLastNumber();
      nextNumber := lastNumber + 1;
    }

    /**
     * POST. A number already stored answers 400 before anything is saved.
     * Otherwise the body, stamped with `savedAt`, is saved (500 if that
     * fails, nothing saved); then, when the extracted number is truthy, the
     * counter document is upserted to it, overwriting whatever was there.
     * If that upsert fails the invoice stays saved and the answer is 500.
     */
    method CreateInvoice(body: Invoice, now: string, saveOk: bool, upsertOk: bool)
      returns (status: nat)
      requires Valid()
      modifies this
      ensures Valid()
      ensures CreateOutcome(old(invoices), old(counterDoc), invoices, counterDoc, body, now, saveOk, upsertOk, status)
    {
      var existing := FindOne(body.invoiceNumber);
      if existing.Some? {
        return BAD_REQUEST;
      }
      if !saveOk {
        return SERVER_ERROR;
      }
      var saved := body.(savedAt := now);
      CreateKeepsDistinct(invoices, saved);
      invoices := invoices + [saved];
      var invoiceNum := Extract(body.invoiceNumber);
      if invoiceNum.Some? && invoiceNum.value != 0 {
        if !upsertOk {
          return SERVER_ERROR;
        }
        counterDoc := Some(invoiceNum.value);
      }
      status := OK;
    }

    /**
     * PUT. An unknown key answers 404. Otherwise the stored invoice gets the
     * body's fields, with `savedAt` carried over (`now` when it had none) and
     * `updatedAt := now`. A body that renames the invoice to a number another
     * invoice already has breaks the unique index: the update throws, 500,
     * nothing changes. The counter is never touched.
     */
    method UpdateInvoice(key: string, body: Invoice, now: string, updateOk: bool)
      returns (status: nat)
      requires Valid()
      modifies this
      ensures Valid()
      ensures UpdateOutcome(old(invoices), old(counterDoc), invoices, counterDoc, key, body, now, updateOk, status)
    {
      var existing := FindOne(key);
      if existing.None? {
        return NOT_FOUND;
      }
      var i := FindInvoice(invoices, key);
      var savedAt := if existing.value.savedAt != "" then existing.value.savedAt else now;
      var updated := body.(savedAt := savedAt, updatedAt := now);
      if !updateOk || (body.invoiceNumber != key && HasInvoice(invoices, body.invoiceNumber)) {
        return SERVER_ERROR;
      }
      ReplaceKeepsDistinct(invoices, i, updated);
      invoices := invoices[i := updated];
      status := OK;
    }

    /**
     * DELETE: `findOneAndDelete`, 404 when nothing matched. With the numbers
     * distinct this removes every invoice with the key, as the file store's
     * filter does.
     */
    method DeleteInvoice(key: string, deleteOk: bool) returns (status: nat)
      requires Valid()
      modifies this
      ensures Valid()
      ensures DeleteOutcome(old(invoices), old(counterDoc), invoices, counterDoc, key, deleteOk, status)
    {
      if !deleteOk {
        return SERVER_ERROR;
      }
      var i := FindInvoice(invoices, key);
      if i == -1 {
        return NOT_FOUND;
      }
      DeleteFirstIsFilter(invoices, key);
      DeleteKeepsDistinct(invoices, key);
      WithoutInvoiceLacksKey(invoices, key);
      invoices := invoices[..i] + invoices[i + 1..];
      status := OK;
    }
  }
}
