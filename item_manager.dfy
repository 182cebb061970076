/**
 * The predefined-items page (src/components/ItemManager.jsx): the local
 * item list and the add/edit form. The form holds text; what the server
 * answers (the created item, whether an update or delete succeeded) is a
 * parameter, and a thrown request reads as a failure.
 */
module ItemManager {
  import opened Wrappers
  import opened Seqs
  import opened Records

  /** The form's two text fields. */
  datatype FormData = FormData(name: string, rate: string)

  const EMPTY_FORM: FormData := FormData("", "")

  /** Both fields filled in: `formData.name && formData.rate`. */
  predicate Filled(form: FormData) {
    form.name != "" && form.rate != ""
  }

  /** JavaScript truthiness of `editingId`: absent and 0 are false. */
  predicate IdTruthy(id: Option<int>) {
    id.Some? && id.value != 0
  }

  /** `items.map(...)` in `handleUpdate`: every item with the id gets the new name and rate. */
  function RenameItems(items: seq<Item>, id: int, name: string, rate: real): (r: seq<Item>)
    ensures |r| == |items|
    ensures forall k | 0 <= k < |items| ::
              r[k] == if items[k].id == id then items[k].(name := name, rate := rate) else items[k]
  {
    seq(|items|, k requires 0 <= k < |items| =>
      if items[k].id == id then items[k].(name := name, rate := rate) else items[k])
  }

  /** Renaming keeps every id, so the set of ids is unchanged and `HasItem` with it. */
  lemma {:induction false} RenameKeepsIds(items: seq<Item>, id: int, name: string, rate: real, other: int)
    ensures HasItem(RenameItems(items, id, name, rate), other) <==> HasItem(items, other)
  {
    var r := RenameItems(items, id, name, rate);
    if HasItem(items, other) {
      var k :| 0 <= k < |items| && items[k].id == other;
      assert r[k].id == other;
    }
    if HasItem(r, other) {
      var k :| 0 <= k < |r| && r[k].id == other;
      assert items[k].id == other;
    }
  }

  class ItemManagerState {
    var items: seq<Item>
    var editingId: Option<int>
    var formData: FormData
    var showForm: bool

    constructor ()
      ensures items == [] && editingId == None && formData == EMPTY_FORM && !showForm
    {
      items, editingId, formData, showForm := [], None, EMPTY_FORM, false;
    }

    /** Typing into the form. */
    method SetForm(form: FormData)
      modifies this
      ensures formData == form
      ensures items == old(items) && editingId == old(editingId) && showForm == old(showForm)
    {
      formData := form;
    }

    /**
     * `handleAdd`: with both fields filled, the item the server returns is
     * appended and the form is emptied and hidden; an empty field, or no
     * item back, changes nothing.
     */
    method Add(created: Option<Item>)
      modifies this
      ensures Filled(old(formData)) && created.Some? ==>
                items == old(items) + [created.value] && formData == EMPTY_FORM && !showForm
      ensures !(Filled(old(formData)) && created.Some?) ==>
                items == old(items) && formData == old(formData) && showForm == old(showForm)
      ensures editingId == old(editingId)
    {
      if Filled(formData) && created.Some? {
        items := items + [created.value];
        formData := EMPTY_FORM;
        showForm := false;
      }
    }

    /**
     * `handleEdit`: the form opens on the item. `rateText` is the item's
     * rate as `toString` writes it, which is never empty.
     */
    method Edit(item: Item, rateText: string)
      requires rateText != ""
      modifies this
      ensures editingId == Some(item.id) && formData == FormData(item.name, rateText) && showForm
      ensures item.name != "" ==> Filled(formData)
      ensures items == old(items)
    {
      editingId := Some(item.id);
      formData := FormData(item.name, rateText);
      showForm := true;
    }

    /**
     * `handleUpdate`: with both fields filled and an item being edited, a
     * successful update gives that item (every item with its id) the new
     * name and the parsed rate, and closes the form. Otherwise nothing
     * changes.
     */
    method Update(parsedRate: real, success: bool)
      modifies this
      ensures Filled(old(formData)) && IdTruthy(old(editingId)) && success ==>
                items == RenameItems(old(items), old(editingId).value, old(formData).name, parsedRate) &&
                editingId == None && formData == EMPTY_FORM && !showForm
      ensures !(Filled(old(formData)) && IdTruthy(old(editingId)) && success) ==>
                items == old(items) && editingId == old(editingId) && formData == old(formData) &&
                showForm == old(showForm)
    {
      if Filled(formData) && IdTruthy(editingId) && success {
        items := RenameItems(items, editingId.value, formData.name, parsedRate);
        editingId := None;
        formData := EMPTY_FORM;
        showForm := false;
      }
    }

    /**
     * `handleDelete`: after the user confirms and the server agrees, the
     * items with the id are dropped and the rest keep their order.
     */
    method Delete(id: int, confirmed: bool, success: bool)
      modifies this
      ensures confirmed && success ==> items == WithoutItem(old(items), id)
      ensures confirmed && success ==> Subsequence(items, old(items)) && !HasItem(items, id)
      ensures confirmed && success ==>
                forall item | item in old(items) && item.id != id :: item in items
      ensures !(confirmed && success) ==> items == old(items)
      ensures editingId == old(editingId) && formData == old(formData) && showForm == old(showForm)
    {
      if confirmed && success {
        WithoutItemSpec(items, id);
        items := WithoutItem(items, id);
        assert !HasItem(items, id) by {
          forall k | 0 <= k < |items| ensures items[k].id != id {
            assert items[k] in items;
          }
        }
      }
    }

    /** `handleCancel`: editing ends and the form is emptied and hidden. */
    method Cancel()
      modifies this
      ensures editingId == None && formData == EMPTY_FORM && !showForm
      ensures items == old(items)
    {
      editingId := None;
      formData := EMPTY_FORM;
      showForm := false;
    }
  }
}
