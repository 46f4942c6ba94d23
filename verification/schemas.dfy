/** The invoice arithmetic checks (intellidoc/extract/schemas.py): a line
    item's total must be within 0.02 of quantity times unit price, and an
    invoice's total within 0.02 of the sum of its line totals. Decimal and
    float values are modelled as reals. */
module Schemas {
  import opened Common

  /** Both validators allow this much rounding difference. */
  const Tolerance: real := 0.02

  datatype LineItem = LineItem(description: string, quantity: real, unitPrice: real, total: real)

  datatype Invoice = Invoice(vendorName: string, invoiceNumber: Option<string>, lineItems: seq<LineItem>, totalAmount: real)

  /** A validator's verdict: the accepted value, or the ValueError raised. */
  datatype Checked = Accepted(value: real) | Mismatch(given: real, expected: real)

  /** validate_line_total. `quantity` and `unitPrice` are None when those
      fields failed their own validation (they are then absent from
      `values`), and the comparison is skipped. */
  function ValidateLineTotal(quantity: Option<real>, unitPrice: Option<real>, total: real): (r: Checked)
    ensures r.Accepted? ==> r.value == total
    ensures r.Mismatch? <==> quantity.Some? && unitPrice.Some? && Abs(total - quantity.value * unitPrice.value) > Tolerance
    ensures r.Mismatch? ==> r.given == total && r.expected == quantity.value * unitPrice.value
  {
    if quantity.Some? && unitPrice.Some? then
      var expected := quantity.value * unitPrice.value;
      if Abs(total - expected) > Tolerance then Mismatch(total, expected) else Accepted(total)
    else Accepted(total)
  }

  /** The totals of the line items, in order. */
  function Totals(items: seq<LineItem>): (r: seq<real>)
    ensures |r| == |items| && forall i :: 0 <= i < |items| ==> r[i] == items[i].total
  {
    if items == [] then [] else Totals(items[..|items| - 1]) + [items[|items| - 1].total]
  }

  /** validate_total_amount. `lineItems` is None when the line items failed
      validation; an empty list also skips the comparison. */
  function ValidateTotalAmount(lineItems: Option<seq<LineItem>>, total: real): (r: Checked)
    ensures r.Accepted? ==> r.value == total
    ensures r.Mismatch? <==> lineItems.Some? && lineItems.value != [] && Abs(total - Sum(Totals(lineItems.value))) > Tolerance
  {
    if lineItems.Some? && lineItems.value != [] then
      var calculated := Sum(Totals(lineItems.value));
      if Abs(total - calculated) > Tolerance then Mismatch(total, calculated) else Accepted(total)
    else Accepted(total)
  }

  /** A line total is accepted exactly when it lies in the closed interval
      of width 0.04 around quantity times unit price: a difference of
      exactly 0.02 passes. */
  lemma LineTotalWindow(quantity: real, unitPrice: real, total: real)
    ensures ValidateLineTotal(Some(quantity), Some(unitPrice), total).Accepted?
      <==> quantity * unitPrice - Tolerance <= total <= quantity * unitPrice + Tolerance
    ensures ValidateLineTotal(Some(quantity), Some(unitPrice), quantity * unitPrice + Tolerance).Accepted?
  {
    var expected := quantity * unitPrice;
    assert ValidateLineTotal(Some(quantity), Some(unitPrice), total).Accepted? <==> Abs(total - expected) <= Tolerance;
    assert ValidateLineTotal(Some(quantity), Some(unitPrice), expected + Tolerance).Accepted? <==> Abs(expected + Tolerance - expected) <= Tolerance;
  }

  /** The invoice total is accepted exactly when it lies within 0.02 of the
      sum of the line totals, or when there are no line items. */
  lemma InvoiceTotalWindow(items: seq<LineItem>, total: real)
    ensures ValidateTotalAmount(Some(items), total).Accepted?
      <==> items == [] || Sum(Totals(items)) - Tolerance <= total <= Sum(Totals(items)) + Tolerance
  {
  }

  /** Appending a line item adds its total to the sum the invoice check
      compares with. */
  lemma {:induction false} TotalsAppend(items: seq<LineItem>, item: LineItem)
    ensures Sum(Totals(items + [item])) == Sum(Totals(items)) + item.total
  {
    assert (items + [item])[..|items + [item]| - 1] == items;
  }

  /** An invoice whose lines are all exact and whose total is the exact sum
      of quantity times unit price passes both checks. */
  lemma {:induction false} ExactInvoicePasses(inv: Invoice)
    requires forall i :: 0 <= i < |inv.lineItems| ==>
      inv.lineItems[i].total == inv.lineItems[i].quantity * inv.lineItems[i].unitPrice
    requires inv.totalAmount == Sum(Totals(inv.lineItems))
    ensures forall i :: 0 <= i < |inv.lineItems| ==>
      ValidateLineTotal(Some(inv.lineItems[i].quantity), Some(inv.lineItems[i].unitPrice), inv.lineItems[i].total).Accepted?
    ensures ValidateTotalAmount(Some(inv.lineItems), inv.totalAmount) == Accepted(inv.totalAmount)
  {
  }
}
