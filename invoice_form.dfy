/**
 * The invoice form's rows and totals (src/components/InvoiceForm.jsx).
 *
 * Numbers are exact reals: `parseFloat`, the `|| 0` fallbacks for NaN and
 * the two-decimal rounding of rebalanced rates are not modelled. A row is
 * consistent when its amount is its rate times its quantity; every handler
 * keeps consistent rows consistent.
 */
module InvoiceForm {
  import opened Text
  import opened Seqs
  import opened Records

  /** One line of the invoice being edited. */
  datatype Row = Row(id: int, name: string, rate: real, quantity: real, amount: real, ratePrefilled: bool)

  /** A change typed into one field of a row. */
  datatype Edit = SetName(name: string) | SetRate(rate: real) | SetQuantity(quantity: real)

  /**
   * `calculateItemAmount`: the rate per unit times the quantity, so a single
   * unit costs the rate.
   */
  function Amount(rate: real, quantity: real): real {
    rate * quantity
  }

  predicate Consistent(row: Row) {
    row.amount == Amount(row.rate, row.quantity)
  }

  predicate AllConsistent(rows: seq<Row>) {
    forall k | 0 <= k < |rows| :: Consistent(rows[k])
  }

  predicate NonNegative(rows: seq<Row>) {
    forall k | 0 <= k < |rows| :: rows[k].rate >= 0.0 && rows[k].quantity >= 0.0
  }

  /** The row the form starts with, and the row "add item" appends. */
  function BlankRow(id: int): (row: Row)
    ensures Consistent(row) && row.name == "" && row.quantity == 1.0 && row.amount == 0.0
  {
    Row(id, "", 0.0, 1.0, 0.0, false)
  }

  // ---------------------------------------------------------------------
  // Totals

  /**
   * `calculateSubtotal`: the sum of the row amounts, blank rows included;
   * it is never negative when no amount is.
   */
  function Subtotal(rows: seq<Row>): (subtotal: real)
    decreases |rows|
  {
    if rows == [] then 0.0 else rows[0].amount + Subtotal(rows[1..])
  }

  /** `calculateTax`: a percentage of the subtotal; no tax at a zero rate. */
  function Tax(rows: seq<Row>, taxRate: real): (tax: real)
    ensures taxRate == 0.0 ==> tax == 0.0
  {
    Subtotal(rows) * taxRate / 100.0
  }

  /** `calculateTotal`: the discount is an absolute amount; without tax the total is the subtotal less it. */
  function Total(rows: seq<Row>, taxRate: real, discount: real): (total: real)
    ensures taxRate == 0.0 ==> total == Subtotal(rows) - discount
  {
    Subtotal(rows) + Tax(rows, taxRate) - discount
  }

  lemma {:induction false} SubtotalNonNegative(rows: seq<Row>)
    requires AllConsistent(rows) && NonNegative(rows)
    ensures Subtotal(rows) >= 0.0
    decreases |rows|
  {
    if rows != [] {
      assert rows[0].amount == rows[0].rate * rows[0].quantity;
      assert rows[0].amount >= 0.0;
      SubtotalNonNegative(rows[1..]);
    }
  }

  lemma {:induction false} SubtotalAppend(rows: seq<Row>, row: Row)
    ensures Subtotal(rows + [row]) == Subtotal(rows) + row.amount
    decreases |rows|
  {
    if rows == [] {
      assert [row][1..] == [];
    } else {
      assert (rows + [row])[1..] == rows[1..] + [row];
      SubtotalAppend(rows[1..], row);
    }
  }

  // ---------------------------------------------------------------------
  // Editing rows

  /**
   * `handleItemChange` on one row. A rate or quantity edit recomputes the
   * amount from the new value; a rate edit also clears `ratePrefilled`; a
   * name edit leaves the amount alone.
   */
  function EditRow(row: Row, edit: Edit): (r: Row)
    ensures r.id == row.id
    ensures edit.SetName? ==> r == row.(name := edit.name)
    ensures edit.SetRate? ==> r.rate == edit.rate && r.quantity == row.quantity && r.name == row.name && !r.ratePrefilled
    ensures edit.SetQuantity? ==> r.quantity == edit.quantity && r.rate == row.rate && r.name == row.name &&
                                  r.ratePrefilled == row.ratePrefilled
    ensures !edit.SetName? ==> Consistent(r)
    ensures Consistent(row) ==> Consistent(r)
  {
    match edit
    case SetName(name) => row.(name := name)
    case SetRate(rate) => row.(rate := rate, ratePrefilled := false, amount := Amount(rate, row.quantity))
    case SetQuantity(quantity) => row.(quantity := quantity, amount := Amount(row.rate, quantity))
  }

  /** `items.map(...)` with the edit applied to every row with the id. */
  function EditRows(rows: seq<Row>, id: int, edit: Edit): (r: seq<Row>)
    ensures |r| == |rows|
    ensures forall k | 0 <= k < |rows| :: r[k] == if rows[k].id == id then EditRow(rows[k], edit) else rows[k]
  {
    seq(|rows|, k requires 0 <= k < |rows| => if rows[k].id == id then EditRow(rows[k], edit) else rows[k])
  }

  /**
   * `handlePredefinedItemSelect` on one row: name and rate from the
   * predefined item, `ratePrefilled` set, amount from the row's own
   * quantity.
   */
  function SelectRow(row: Row, item: Item): (r: Row)
    ensures r.id == row.id && r.name == item.name && r.rate == item.rate && r.quantity == row.quantity
    ensures r.ratePrefilled && Consistent(r)
  {
    row.(name := item.name, rate := item.rate, ratePrefilled := true, amount := Amount(item.rate, row.quantity))
  }

  function SelectRows(rows: seq<Row>, id: int, item: Item): (r: seq<Row>)
    ensures |r| == |rows|
    ensures forall k | 0 <= k < |rows| :: r[k] == if rows[k].id == id then SelectRow(rows[k], item) else rows[k]
  {
    seq(|rows|, k requires 0 <= k < |rows| => if rows[k].id == id then SelectRow(rows[k], item) else rows[k])
  }

  predicate HasRow(rows: seq<Row>, id: int) {
    exists k | 0 <= k < |rows| :: rows[k].id == id
  }

  /** `items.find(i => i.id === id)`: the index of the first row with the id. */
  function FindRow(rows: seq<Row>, id: int): (i: nat)
    requires HasRow(rows, id)
    ensures i < |rows| && rows[i].id == id
    ensures forall k | 0 <= k < i :: rows[k].id != id
  {
    if rows[0].id == id then 0
    else
      assert exists k | 0 <= k < |rows[1..]| :: rows[1..][k].id == id by {
        var k :| 0 <= k < |rows| && rows[k].id == id;
        assert rows[1..][k - 1] == rows[k];
      }
      1 + FindRow(rows[1..], id)
  }

  /** `Math.max(0, x)`. */
  function ClampStep(x: real): (r: real)
    ensures r >= 0.0 && r >= x
    ensures x >= 0.0 ==> r == x
  {
    if x > 0.0 then x else 0.0
  }

  /** The quantity the ± buttons start from: `item.quantity || 1` reads 0 as 1. */
  function StepBase(quantity: real): (base: real)
    ensures base != 0.0
    ensures quantity != 0.0 ==> base == quantity
  {
    if quantity == 0.0 then 1.0 else quantity
  }

  /** Row ids are `Date.now()` stamps and are meant to be distinct. */
  predicate DistinctRowIds(rows: seq<Row>) {
    forall i, j | 0 <= i < j < |rows| :: rows[i].id != rows[j].id
  }

  /** `items.filter(item => item.id !== id)`: exactly the rows with another id. */
  function RemoveRows(rows: seq<Row>, id: int): (r: seq<Row>)
    ensures |r| <= |rows|
    ensures forall row | row in r :: row in rows && row.id != id
    ensures forall row | row in rows && row.id != id :: row in r
  {
    Filter((row: Row) => row.id != id, rows)
  }

  /** The rows `handleSubmit` saves: those whose trimmed name is non-empty, in order. */
  function SavedRows(rows: seq<Row>): (r: seq<Row>)
    ensures forall row | row in r :: !IsBlank(row.name) && row in rows
    ensures forall row | row in rows && !IsBlank(row.name) :: row in r
  {
    Filter((row: Row) => Trim(row.name) != "", rows)
  }

  lemma {:induction false} SavedRowsInOrder(rows: seq<Row>)
    ensures Subsequence(SavedRows(rows), rows)
    ensures |SavedRows(rows)| == |rows| <==> forall k | 0 <= k < |rows| :: !IsBlank(rows[k].name)
  {
    var keep := (row: Row) => Trim(row.name) != "";
    FilterIsSubsequence(keep, rows);
    FilterKeepsAllIff(keep, rows);
  }

  /**
   * The saved subtotal is computed over every row, blank ones included: a
   * blank row with an amount makes it differ from the sum of the saved rows.
   */
  lemma {:induction false} SubtotalCountsBlankRows(row: Row)
    requires IsBlank(row.name) && row.amount != 0.0
    ensures SavedRows([row]) == []
    ensures Subtotal([row]) != Subtotal(SavedRows([row]))
  {
    assert Trim(row.name) == "";
    assert [row][1..] == [];
  }

  // ---------------------------------------------------------------------
  // Rebalancing to a typed total

  /**
   * The subtotal that makes the total come out as `newTotal`:
   * (total + discount) / (1 + taxRate / 100), or total + discount with no tax.
   */
  function TargetSubtotal(newTotal: real, taxRate: real, discount: real): (target: real)
    requires taxRate != -100.0
    ensures target * (1.0 + taxRate / 100.0) == newTotal + discount
  {
    if taxRate == 0.0 then newTotal + discount
    else (newTotal + discount) / (1.0 + taxRate / 100.0)
  }

  /** `currentSubtotal > 0 ? targetSubtotal / currentSubtotal : 1`. */
  function Ratio(subtotal: real, target: real): (ratio: real)
    ensures subtotal > 0.0 ==> ratio * subtotal == target
    ensures subtotal <= 0.0 ==> ratio == 1.0
  {
    if subtotal > 0.0 then target / subtotal else 1.0
  }

  /** A row with positive rate and quantity has its rate scaled by the ratio and its amount recomputed. */
  function ScaleRow(row: Row, ratio: real): (r: Row)
    ensures r.id == row.id && r.name == row.name && r.quantity == row.quantity
    ensures row.rate > 0.0 && row.quantity > 0.0 ==>
              r.rate == row.rate * ratio && Consistent(r) && !r.ratePrefilled
    ensures !(row.rate > 0.0 && row.quantity > 0.0) ==> r == row
  {
    if row.rate > 0.0 && row.quantity > 0.0 then
      var rate := row.rate * ratio;
      row.(rate := rate, amount := Amount(rate, row.quantity), ratePrefilled := false)
    else row
  }

  /** `items.map(...)`: every row scaled, in order. */
  function Rebalance(rows: seq<Row>, ratio: real): (r: seq<Row>)
    ensures |r| == |rows|
    decreases |rows|
  {
    if rows == [] then [] else [ScaleRow(rows[0], ratio)] + Rebalance(rows[1..], ratio)
  }

  /** Each rebalanced row is the scaled row at the same place. */
  lemma {:induction false} RebalanceAt(rows: seq<Row>, ratio: real, k: nat)
    requires k < |rows|
    ensures Rebalance(rows, ratio)[k] == ScaleRow(rows[k], ratio)
    decreases k
  {
    if k > 0 {
      RebalanceAt(rows[1..], ratio, k - 1);
    }
  }

  /** Scaling every priced row scales the subtotal, since unpriced rows have amount 0. */
  lemma {:induction false} RebalanceScalesSubtotal(rows: seq<Row>, ratio: real)
    requires AllConsistent(rows) && NonNegative(rows)
    ensures Subtotal(Rebalance(rows, ratio)) == ratio * Subtotal(rows)
  {
    AllScalable(rows);
    ScalableScalesSubtotal(rows, ratio);
  }

  /** Consistent with non-negative rate and quantity, row by row from the front. */
  predicate Scalable(rows: seq<Row>)
    decreases |rows|
  {
    rows == [] ||
    (Consistent(rows[0]) && rows[0].rate >= 0.0 && rows[0].quantity >= 0.0 && Scalable(rows[1..]))
  }

  lemma {:induction false} AllScalable(rows: seq<Row>)
    requires AllConsistent(rows) && NonNegative(rows)
    ensures Scalable(rows)
    decreases |rows|
  {
    if rows != [] {
      var rest := rows[1..];
      forall k | 0 <= k < |rest| ensures Consistent(rest[k]) && rest[k].rate >= 0.0 && rest[k].quantity >= 0.0 {
        assert rest[k] == rows[k + 1];
      }
      AllScalable(rest);
    }
  }

  lemma {:induction false} ScalableScalesSubtotal(rows: seq<Row>, ratio: real)
    requires Scalable(rows)
    ensures Subtotal(Rebalance(rows, ratio)) == ratio * Subtotal(rows)
    decreases |rows|
  {
    if rows != [] {
      ScalableScalesSubtotal(rows[1..], ratio);
      ScaleFirst(rows, ratio);
    } else {
      assert Rebalance(rows, ratio) == [];
      ZeroScaled(ratio);
    }
  }

  /** The inductive step: the first row scales, and the rest already does. */
  lemma {:induction false} ScaleFirst(rows: seq<Row>, ratio: real)
    requires rows != [] && Consistent(rows[0]) && rows[0].rate >= 0.0 && rows[0].quantity >= 0.0
    requires Subtotal(Rebalance(rows[1..], ratio)) == ratio * Subtotal(rows[1..])
    ensures Subtotal(Rebalance(rows, ratio)) == ratio * Subtotal(rows)
  {
    SubtotalRebalanceCons(rows, ratio);
    SubtotalCons(rows);
    ScaledAmount(rows[0], ratio);
    DistributeRatio(ratio, rows[0].amount, Subtotal(rows[1..]),
                    ScaleRow(rows[0], ratio).amount, Subtotal(Rebalance(rows[1..], ratio)),
                    Subtotal(rows), Subtotal(Rebalance(rows, ratio)));
  }

  /** Proof step: one unfolding of `Subtotal` over `Rebalance`. */
  lemma {:induction false} SubtotalRebalanceCons(rows: seq<Row>, ratio: real)
    requires rows != []
    ensures Subtotal(Rebalance(rows, ratio)) ==
            ScaleRow(rows[0], ratio).amount + Subtotal(Rebalance(rows[1..], ratio))
  {
    var r := Rebalance(rows, ratio);
    assert r == [ScaleRow(rows[0], ratio)] + Rebalance(rows[1..], ratio);
    assert r[0] == ScaleRow(rows[0], ratio) && r[1..] == Rebalance(rows[1..], ratio);
  }

  /** Proof step: one unfolding of `Subtotal`. */
  lemma {:induction false} SubtotalCons(rows: seq<Row>)
    requires rows != []
    ensures Subtotal(rows) == rows[0].amount + Subtotal(rows[1..])
  {
  }

  /** Proof step: real arithmetic the solver needs spelled out (the empty list's case). */
  lemma {:induction false} ZeroScaled(ratio: real)
    ensures ratio * 0.0 == 0.0
  {
  }

  /** A scaled row's amount is the old amount times the ratio. */
  lemma {:induction false} ScaledAmount(row: Row, ratio: real)
    requires Consistent(row) && row.rate >= 0.0 && row.quantity >= 0.0
    ensures ScaleRow(row, ratio).amount == ratio * row.amount
  {
    if row.rate > 0.0 && row.quantity > 0.0 {
      assert (row.rate * ratio) * row.quantity == ratio * (row.rate * row.quantity);
    } else {
      assert row.rate == 0.0 || row.quantity == 0.0;
      assert row.amount == 0.0;
    }
  }

  /** Proof step: multiplication distributes over a sum, in named terms. */
  lemma {:induction false} DistributeRatio(ratio: real, x: real, y: real, sx: real, sy: real, sum: real, scaledSum: real)
    requires sx == ratio * x && sy == ratio * y
    requires sum == x + y && scaledSum == sx + sy
    ensures scaledSum == ratio * sum
  {
  }

  /** Proof step: for a positive subtotal, the ratio times the subtotal is the target. */
  lemma {:induction false} RatioRestoresTarget(subtotal: real, target: real)
    requires subtotal > 0.0
    ensures Ratio(subtotal, target) * subtotal == target
  {
  }

  /** A subtotal equal to the target gives back the typed total. */
  lemma {:induction false} TargetGivesTotal(newTotal: real, taxRate: real, discount: real)
    requires taxRate != -100.0
    ensures var target := TargetSubtotal(newTotal, taxRate, discount);
            target + target * taxRate / 100.0 - discount == newTotal
  {
    var target := TargetSubtotal(newTotal, taxRate, discount);
    if taxRate != 0.0 {
      var f := 1.0 + taxRate / 100.0;
      assert f != 0.0;
      assert target == (newTotal + discount) / f;
      assert target * f == newTotal + discount;
      assert target + target * taxRate / 100.0 == target * f;
    }
  }

  /**
   * Under exact arithmetic the rebalanced rows give back the typed total,
   * when every row is consistent with non-negative rate and quantity.
   */
  lemma {:induction false} RebalanceHitsTotal(rows: seq<Row>, taxRate: real, discount: real, newTotal: real)
    requires AllConsistent(rows) && NonNegative(rows)
    requires Subtotal(rows) != 0.0 && newTotal != 0.0 && taxRate != -100.0
    ensures Total(Rebalance(rows, Ratio(Subtotal(rows), TargetSubtotal(newTotal, taxRate, discount))), taxRate, discount)
            == newTotal
  {
    var subtotal := Subtotal(rows);
    SubtotalNonNegative(rows);
    var target := TargetSubtotal(newTotal, taxRate, discount);
    var ratio := Ratio(subtotal, target);
    RatioRestoresTarget(subtotal, target);
    ScaledSubtotalIs(rows, ratio, target);
    TotalFromSubtotal(Rebalance(rows, ratio), taxRate, discount, target);
    TargetGivesTotal(newTotal, taxRate, discount);
  }

  lemma {:induction false} ScaledSubtotalIs(rows: seq<Row>, ratio: real, target: real)
    requires AllConsistent(rows) && NonNegative(rows)
    requires ratio * Subtotal(rows) == target
    ensures Subtotal(Rebalance(rows, ratio)) == target
  {
    RebalanceScalesSubtotal(rows, ratio);
  }

  lemma {:induction false} TotalFromSubtotal(rows: seq<Row>, taxRate: real, discount: real, subtotal: real)
    requires Subtotal(rows) == subtotal
    ensures Total(rows, taxRate, discount) == subtotal + subtotal * taxRate / 100.0 - discount
  {
  }

  /** Rebalancing keeps consistent rows consistent. */
  lemma {:induction false} RebalanceKeepsConsistent(rows: seq<Row>, ratio: real)
    requires AllConsistent(rows)
    ensures AllConsistent(Rebalance(rows, ratio))
  {
    forall k | 0 <= k < |rows| ensures Consistent(Rebalance(rows, ratio)[k]) {
      RebalanceAt(rows, ratio, k);
      assert Consistent(rows[k]);
    }
  }

  // ---------------------------------------------------------------------
  // The form's state

  datatype TotalKey = EnterKey | EscapeKey | OtherKey

  class InvoiceFormState {
    var items: seq<Row>
    var taxRate: real
    var discount: real
    var isEditingTotal: bool
    var editedTotal: real

    /** One blank row with id 1, no tax, no discount. */
    constructor ()
      ensures items == [BlankRow(1)] && taxRate == 0.0 && discount == 0.0
      ensures !isEditingTotal && editedTotal == 0.0
    {
      items := [BlankRow(1)];
      taxRate, discount := 0.0, 0.0;
      isEditingTotal, editedTotal := false, 0.0;
    }

    /** `handleItemChange`. */
    method ItemChange(id: int, edit: Edit)
      modifies this
      ensures items == EditRows(old(items), id, edit)
      ensures AllConsistent(old(items)) ==> AllConsistent(items)
      ensures taxRate == old(taxRate) && discount == old(discount)
      ensures isEditingTotal == old(isEditingTotal) && editedTotal == old(editedTotal)
    {
      items := EditRows(items, id, edit);
    }

    /** `handlePredefinedItemSelect`. */
    method PredefinedSelect(id: int, item: Item)
      modifies this
      ensures items == SelectRows(old(items), id, item)
      ensures AllConsistent(old(items)) ==> AllConsistent(items)
      ensures taxRate == old(taxRate) && discount == old(discount)
      ensures isEditingTotal == old(isEditingTotal) && editedTotal == old(editedTotal)
    {
      items := SelectRows(items, id, item);
    }

    /**
     * `handleRateChange`: the first row with the id gives the rate to step
     * from; the stepped rate, never negative, is then typed into every row
     * with that id. Nothing happens when no row has the id.
     */
    method RateStep(id: int, delta: real)
      modifies this
      ensures !HasRow(old(items), id) ==> items == old(items)
      ensures HasRow(old(items), id) ==>
                items == EditRows(old(items), id, SetRate(ClampStep(old(items)[FindRow(old(items), id)].rate + delta)))
      ensures forall k | 0 <= k < |items| && items[k].id == id :: items[k].rate >= 0.0
      ensures AllConsistent(old(items)) ==> AllConsistent(items)
      ensures taxRate == old(taxRate) && discount == old(discount)
      ensures isEditingTotal == old(isEditingTotal) && editedTotal == old(editedTotal)
    {
      if HasRow(items, id) {
        var row := items[FindRow(items, id)];
        var newRate := ClampStep(row.rate + delta);
        ItemChange(id, SetRate(newRate));
      }
    }

    /**
     * `handleQuantityChange`: as the rate step, except that a quantity of 0
     * is stepped from 1.
     */
    method QuantityStep(id: int, delta: real)
      modifies this
      ensures !HasRow(old(items), id) ==> items == old(items)
      ensures HasRow(old(items), id) ==>
                items == EditRows(old(items), id,
                                  SetQuantity(ClampStep(StepBase(old(items)[FindRow(old(items), id)].quantity) + delta)))
      ensures forall k | 0 <= k < |items| && items[k].id == id :: items[k].quantity >= 0.0
      ensures AllConsistent(old(items)) ==> AllConsistent(items)
      ensures taxRate == old(taxRate) && discount == old(discount)
      ensures isEditingTotal == old(isEditingTotal) && editedTotal == old(editedTotal)
    {
      if HasRow(items, id) {
        var row := items[FindRow(items, id)];
        var newQuantity := ClampStep(StepBase(row.quantity) + delta);
        ItemChange(id, SetQuantity(newQuantity));
      }
    }

    /** `handleAddItem`: one blank row appended, the subtotal unchanged. */
    method AddItem(newId: int)
      modifies this
      ensures items == old(items) + [BlankRow(newId)]
      ensures Subtotal(items) == Subtotal(old(items))
      ensures AllConsistent(old(items)) ==> AllConsistent(items)
      ensures taxRate == old(taxRate) && discount == old(discount)
      ensures isEditingTotal == old(isEditingTotal) && editedTotal == old(editedTotal)
    {
      SubtotalAppend(items, BlankRow(newId));
      items := items + [BlankRow(newId)];
    }

    /**
     * `handleRemoveItem`: the rows with the id are dropped, but only while
     * there are at least two rows; the last row can never be removed.
     */
    method RemoveItem(id: int)
      modifies this
      ensures |old(items)| <= 1 ==> items == old(items)
      ensures |old(items)| > 1 ==> items == RemoveRows(old(items), id)
      ensures old(items) != [] && DistinctRowIds(old(items)) ==> items != []
      ensures DistinctRowIds(old(items)) && |old(items)| > 1 && HasRow(old(items), id) ==> |items| == |old(items)| - 1
      ensures Subsequence(items, old(items))
      ensures AllConsistent(old(items)) ==> AllConsistent(items)
      ensures taxRate == old(taxRate) && discount == old(discount)
      ensures isEditingTotal == old(isEditingTotal) && editedTotal == old(editedTotal)
    {
      SubsequenceRefl(items);
      if |items| > 1 {
        var keep := (row: Row) => row.id != id;
        FilterIsSubsequence(keep, items);
        RemoveKeepsRows(items, id);
        if DistinctRowIds(items) {
          assert items[0].id != items[1].id;
          if HasRow(items, id) {
            RemoveDropsOne(items, id);
          }
        }
        items := RemoveRows(items, id);
      }
    }

    /** `handleTotalClick`: editing starts from the current total. */
    method TotalClick()
      modifies this
      ensures isEditingTotal && editedTotal == Total(items, taxRate, discount)
      ensures items == old(items) && taxRate == old(taxRate) && discount == old(discount)
    {
      editedTotal := Total(items, taxRate, discount);
      isEditingTotal := true;
    }

    /**
     * `handleTotalChange`: with a zero subtotal or a zero total the rows stay
     * as they are; otherwise every priced row is scaled by the same ratio.
     * Editing ends either way.
     */
    method TotalChange(newTotal: real)
      requires taxRate != -100.0
      modifies this
      ensures taxRate == old(taxRate) && discount == old(discount) && editedTotal == old(editedTotal)
      ensures !isEditingTotal
      ensures Subtotal(old(items)) == 0.0 || newTotal == 0.0 ==> items == old(items)
      ensures Subtotal(old(items)) != 0.0 && newTotal != 0.0 ==>
                items == Rebalance(old(items),
                                   Ratio(Subtotal(old(items)), TargetSubtotal(newTotal, taxRate, discount)))
      ensures AllConsistent(old(items)) && NonNegative(old(items)) && newTotal != 0.0 && Subtotal(old(items)) != 0.0 ==>
                Total(items, taxRate, discount) == newTotal
    {
      var subtotal := Subtotal(items);
      if subtotal == 0.0 || newTotal == 0.0 {
        isEditingTotal := false;
        return;
      }
      var ratio := Ratio(subtotal, TargetSubtotal(newTotal, taxRate, discount));
      if AllConsistent(items) && NonNegative(items) {
        RebalanceHitsTotal(items, taxRate, discount, newTotal);
      }
      items := Rebalance(items, ratio);
      isEditingTotal := false;
    }

    /** `handleTotalBlur`: leaving the total field applies the typed total while editing. */
    method TotalBlur()
      requires taxRate != -100.0
      modifies this
      ensures taxRate == old(taxRate) && discount == old(discount) && editedTotal == old(editedTotal)
      ensures !isEditingTotal
      ensures !old(isEditingTotal) || Subtotal(old(items)) == 0.0 || editedTotal == 0.0 ==> items == old(items)
      ensures old(isEditingTotal) && Subtotal(old(items)) != 0.0 && editedTotal != 0.0 ==>
                items == Rebalance(old(items),
                                   Ratio(Subtotal(old(items)), TargetSubtotal(editedTotal, taxRate, discount)))
      ensures old(isEditingTotal) && AllConsistent(old(items)) && NonNegative(old(items)) &&
              editedTotal != 0.0 && Subtotal(old(items)) != 0.0 ==>
                Total(items, taxRate, discount) == editedTotal
    {
      if isEditingTotal {
        TotalChange(editedTotal);
      }
    }

    /** `handleTotalKeyPress`: Enter applies the typed total, Escape abandons it. */
    method TotalKeyPress(key: TotalKey)
      requires taxRate != -100.0
      modifies this
      ensures taxRate == old(taxRate) && discount == old(discount)
      ensures key == EnterKey ==> editedTotal == old(editedTotal) && !isEditingTotal
      ensures key == EnterKey && (Subtotal(old(items)) == 0.0 || editedTotal == 0.0) ==> items == old(items)
      ensures key == EnterKey && Subtotal(old(items)) != 0.0 && editedTotal != 0.0 ==>
                items == Rebalance(old(items),
                                   Ratio(Subtotal(old(items)), TargetSubtotal(editedTotal, taxRate, discount)))
      ensures key == EnterKey && AllConsistent(old(items)) && NonNegative(old(items)) &&
              editedTotal != 0.0 && Subtotal(old(items)) != 0.0 ==>
                Total(items, taxRate, discount) == editedTotal
      ensures key == EscapeKey ==>
                items == old(items) && !isEditingTotal && editedTotal == Total(items, taxRate, discount)
      ensures key == OtherKey ==>
                items == old(items) && isEditingTotal == old(isEditingTotal) && editedTotal == old(editedTotal)
    {
      if key == EnterKey {
        TotalChange(editedTotal);
      } else if key == EscapeKey {
        isEditingTotal := false;
        editedTotal := Total(items, taxRate, discount);
      }
    }
  }

  /** Removal keeps every surviving row, so it keeps consistency, and leaves a row behind when two ids differ. */
  lemma {:induction false} RemoveKeepsRows(rows: seq<Row>, id: int)
    requires |rows| > 1
    ensures forall row | row in RemoveRows(rows, id) :: row in rows
    ensures AllConsistent(rows) ==> AllConsistent(RemoveRows(rows, id))
    ensures (exists k | 0 <= k < |rows| :: rows[k].id != id) ==> RemoveRows(rows, id) != []
  {
    var r := RemoveRows(rows, id);
    if AllConsistent(rows) {
      forall k | 0 <= k < |r| ensures Consistent(r[k]) {
        assert r[k] in rows;
      }
    }
    if exists k | 0 <= k < |rows| :: rows[k].id != id {
      var k :| 0 <= k < |rows| && rows[k].id != id;
      assert rows[k] in r;
    }
  }

  /** With distinct ids, removing a present row drops exactly one row. */
  lemma {:induction false} RemoveDropsOne(rows: seq<Row>, id: int)
    requires DistinctRowIds(rows)
    requires HasRow(rows, id)
    ensures |RemoveRows(rows, id)| == |rows| - 1
  {
    var keep := (row: Row) => row.id != id;
    var i := FindRow(rows, id);
    assert rows == rows[..i] + [rows[i]] + rows[i + 1..];
    FilterConcat(keep, rows[..i] + [rows[i]], rows[i + 1..]);
    FilterConcat(keep, rows[..i], [rows[i]]);
    assert forall k | 0 <= k < |rows[..i]| :: keep(rows[..i][k]);
    FilterKeepsAllIff(keep, rows[..i]);
    var after := rows[i + 1..];
    forall k | 0 <= k < |after| ensures keep(after[k]) {
      assert after[k] == rows[i + 1 + k];
    }
    FilterKeepsAllIff(keep, after);
    assert Filter(keep, [rows[i]]) == [] by {
      assert !keep(rows[i]) && [rows[i]][1..] == [];
    }
  }
}
