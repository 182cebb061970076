/**
 * Page navigation in the app shell (src/App.jsx): which page is active,
 * which invoice is previewed or being edited, and the slide direction.
 */
module App {
  import opened Wrappers
  import opened Records

  datatype Page = Create | Invoices | Items

  /** The position of a page in the sidebar: create, invoices, items. */
  function PageIndex(page: Page): (index: nat)
    ensures index < 3
    ensures page == Create <==> index == 0
    ensures page == Items <==> index == 2
  {
    match page
    case Create => 0
    case Invoices => 1
    case Items => 2
  }

  /** What `renderPage` shows. */
  datatype View =
    | Form(formKey: string, initial: Option<Invoice>, editMode: bool)
    | Preview(shown: Invoice, fromList: bool, canEdit: bool)
    | ListView
    | ItemsView

  /** The form's React key: a change of key remounts the form with fresh state. */
  function FormKey(editing: Option<Invoice>): (key: string)
    ensures editing.None? ==> key == "new-invoice"
    ensures editing.Some? ==> key == "edit-" + editing.value.invoiceNumber
  {
    if editing.Some? then "edit-" + editing.value.invoiceNumber else "new-invoice"
  }

  /** Editing two different invoices gives two keys, and neither is the new-invoice key. */
  lemma {:induction false} FormKeysDiffer(a: Invoice, b: Invoice)
    requires a.invoiceNumber != b.invoiceNumber
    ensures FormKey(Some(a)) != FormKey(Some(b))
    ensures FormKey(Some(a)) != FormKey(None)
  {
    var ka, kb := FormKey(Some(a)), FormKey(Some(b));
    assert ka[5..] == a.invoiceNumber && kb[5..] == b.invoiceNumber;
    assert ka[1] == 'd' && FormKey(None)[1] == 'e';
  }

  class AppState {
    var activePage: Page
    var invoiceData: Option<Invoice>
    var editingInvoiceData: Option<Invoice>
    var viewingFromList: bool
    var pageDirection: int

    /** The create page with an empty form. */
    constructor ()
      ensures activePage == Create && invoiceData == None && editingInvoiceData == None
      ensures !viewingFromList && pageDirection == 0
      ensures Render() == Form("new-invoice", None, false)
    {
      activePage, invoiceData, editingInvoiceData := Create, None, None;
      viewingFromList, pageDirection := false, 0;
    }

    /**
     * `renderPage`: on the create page the form shows exactly when nothing
     * is previewed, in edit mode exactly when an invoice is being edited;
     * the preview offers "edit" only when opened from the list.
     */
    function Render(): (view: View)
      reads this
      ensures activePage == Create && invoiceData.None? <==> view.Form?
      ensures view.Form? ==> view.editMode == editingInvoiceData.Some? && view.initial == editingInvoiceData
      ensures view.Preview? <==> activePage == Create && invoiceData.Some?
      ensures view.Preview? ==> view.shown == invoiceData.value && view.canEdit == viewingFromList
      ensures view == ListView <==> activePage == Invoices
      ensures view == ItemsView <==> activePage == Items
    {
      match activePage
      case Create =>
        if invoiceData.None? then Form(FormKey(editingInvoiceData), editingInvoiceData, editingInvoiceData.Some?)
        else Preview(invoiceData.value, viewingFromList, viewingFromList)
      case Invoices => ListView
      case Items => ItemsView
    }

    /**
     * `handleInvoiceGenerate`: the submitted invoice is previewed; a new
     * invoice (not an update) also ends any editing.
     */
    method InvoiceGenerate(data: Invoice, isUpdate: bool)
      modifies this
      ensures invoiceData == Some(data) && !viewingFromList
      ensures editingInvoiceData == if isUpdate then old(editingInvoiceData) else None
      ensures activePage == old(activePage) && pageDirection == old(pageDirection)
      ensures activePage == Create ==> Render() == Preview(data, false, false)
    {
      invoiceData := Some(data);
      viewingFromList := false;
      if !isUpdate {
        editingInvoiceData := None;
      }
    }

    /** `handleEditInvoice`: the create page's form opens on the invoice, in edit mode. */
    method EditInvoice(invoice: Invoice)
      modifies this
      ensures editingInvoiceData == Some(invoice) && invoiceData == None
      ensures activePage == Create && !viewingFromList
      ensures pageDirection == old(pageDirection)
      ensures Render() == Form(FormKey(Some(invoice)), Some(invoice), true)
    {
      editingInvoiceData := Some(invoice);
      invoiceData := None;
      activePage := Create;
      viewingFromList := false;
    }

    /** `handleViewFromList`. */
    method ViewFromList(invoice: Invoice)
      modifies this
      ensures invoiceData == Some(invoice) && viewingFromList
      ensures activePage == old(activePage) && editingInvoiceData == old(editingInvoiceData)
      ensures pageDirection == old(pageDirection)
      ensures activePage == Create ==> Render() == Preview(invoice, true, true)
    {
      invoiceData := Some(invoice);
      viewingFromList := true;
    }

    /** `handleBackToEdit`: the previewed invoice becomes the one being edited. */
    method BackToEdit()
      modifies this
      ensures editingInvoiceData == old(invoiceData) && invoiceData == None
      ensures activePage == old(activePage) && viewingFromList == old(viewingFromList)
      ensures pageDirection == old(pageDirection)
      ensures activePage == Create ==> Render() == Form(FormKey(old(invoiceData)), old(invoiceData), old(invoiceData).Some?)
    {
      editingInvoiceData := invoiceData;
      invoiceData := None;
    }

    /** `handleReset` changes nothing: the form restores itself from the preview. */
    method Reset()
      ensures activePage == old(activePage) && invoiceData == old(invoiceData)
      ensures editingInvoiceData == old(editingInvoiceData)
      ensures viewingFromList == old(viewingFromList) && pageDirection == old(pageDirection)
    {
    }

    /** The preview's back-to-list button. */
    method BackToList()
      modifies this
      ensures activePage == Invoices && invoiceData == None && !viewingFromList
      ensures editingInvoiceData == old(editingInvoiceData) && pageDirection == old(pageDirection)
      ensures Render() == ListView
    {
      viewingFromList := false;
      invoiceData := None;
      activePage := Invoices;
    }

    /**
     * `handlePageChange`: slide forward (+1) when the new page is further
     * down the sidebar, else back (-1), the same page included; any preview
     * is dropped, and going to the create page also ends editing.
     */
    method PageChange(newPage: Page)
      modifies this
      ensures pageDirection == if PageIndex(newPage) > PageIndex(old(activePage)) then 1 else -1
      ensures activePage == newPage && invoiceData == None
      ensures newPage == Create ==> editingInvoiceData == None && !viewingFromList
      ensures newPage != Create ==>
                editingInvoiceData == old(editingInvoiceData) && viewingFromList == old(viewingFromList)
      ensures newPage == Create ==> Render() == Form("new-invoice", None, false)
    {
      var currentIndex := PageIndex(activePage);
      var newIndex := PageIndex(newPage);
      pageDirection := if newIndex > currentIndex then 1 else -1;
      activePage := newPage;
      invoiceData := None;
      if newPage == Create {
        editingInvoiceData := None;
        viewingFromList := false;
      }
    }
  }
}
