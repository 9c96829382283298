/**
 * The invoice form: free-text line items with a quantity and a unit price,
 * each carrying its own total, and the derived subtotal, a 10% tax and the
 * grand total. The event handlers of the form are methods of `InvoiceForm`;
 * the functions beside the class say what an edit does to one item.
 */
module Invoice {
  import opened Common
  import opened Text

  /** One invoice line. */
  datatype InvoiceItem = InvoiceItem(description: string, quantity: real, unitPrice: real, total: real)

  /** The line `addItem` appends and the form starts with. */
  const BlankItem := InvoiceItem("", 1.0, 0.0, 0.0)

  /** `subtotal * 0.1`: the 10% tax. */
  function Tax(subtotal: real): real {
    subtotal * 0.1
  }

  /**
   * An edit through `handleItemChange`: the description as typed, or a
   * quantity or unit price as `Number.parseFloat` read it (`None` is NaN).
   */
  datatype ItemField =
    | Description(text: string)
    | Quantity(parsedQuantity: Option<real>)
    | UnitPrice(parsedUnitPrice: Option<real>)

  /** `quantity * unitPrice`. */
  function LineTotal(quantity: real, unitPrice: real): real {
    quantity * unitPrice
  }

  /** The line total is quantity times unit price. */
  predicate Consistent(item: InvoiceItem) {
    item.total == LineTotal(item.quantity, item.unitPrice)
  }

  /**
   * `handleItemChange` on one line: the edited field takes the new value
   * (an unparseable number becomes 0), the other fields keep theirs, and the
   * total is recomputed.
   */
  function EditedItem(item: InvoiceItem, field: ItemField): (r: InvoiceItem)
    ensures Consistent(r)
    ensures field.Description? ==>
      r.description == field.text && r.quantity == item.quantity && r.unitPrice == item.unitPrice
    ensures field.Quantity? ==>
      r.quantity == OrZero(field.parsedQuantity) && r.description == item.description && r.unitPrice == item.unitPrice
    ensures field.UnitPrice? ==>
      r.unitPrice == OrZero(field.parsedUnitPrice) && r.description == item.description && r.quantity == item.quantity
  {
    var updated :=
      match field
      case Description(text) => item.(description := text)
      case Quantity(parsed) => item.(quantity := OrZero(parsed))
      case UnitPrice(parsed) => item.(unitPrice := OrZero(parsed));
    updated.(total := LineTotal(updated.quantity, updated.unitPrice))
  }

  /** Which of the three fields an edit writes. */
  function FieldIndex(field: ItemField): nat {
    match field
    case Description(_) => 0
    case Quantity(_) => 1
    case UnitPrice(_) => 2
  }

  /** Repeating an edit changes nothing more. */
  lemma EditIdempotent(item: InvoiceItem, field: ItemField)
    ensures EditedItem(EditedItem(item, field), field) == EditedItem(item, field)
  {
  }

  /** Edits of two different fields can be made in either order. */
  lemma EditsCommute(item: InvoiceItem, f: ItemField, g: ItemField)
    requires FieldIndex(f) != FieldIndex(g)
    ensures EditedItem(EditedItem(item, f), g) == EditedItem(EditedItem(item, g), f)
  {
  }

  /** Only the description is free to change without touching the total. */
  lemma DescriptionKeepsTotal(item: InvoiceItem, text: string)
    requires Consistent(item)
    ensures EditedItem(item, Description(text)).total == item.total
  {
  }

  /** An unparseable quantity or unit price zeroes the line. */
  lemma UnparseableZeroesLine(item: InvoiceItem)
    ensures EditedItem(item, Quantity(None)).quantity == 0.0 && EditedItem(item, Quantity(None)).total == 0.0
    ensures EditedItem(item, UnitPrice(None)).unitPrice == 0.0 && EditedItem(item, UnitPrice(None)).total == 0.0
  {
  }

  /** The line totals, in order. */
  function LineTotals(items: seq<InvoiceItem>): (r: seq<real>)
    ensures |r| == |items| && forall i :: 0 <= i < |items| ==> r[i] == items[i].total
  {
    seq(|items|, i requires 0 <= i < |items| => items[i].total)
  }

  /** `items.reduce((sum, item) => sum + item.total, 0)`. */
  function Subtotal(items: seq<InvoiceItem>): real {
    Sum(LineTotals(items))
  }

  /** Overwriting one line changes the subtotal by the difference of the two totals. */
  lemma SubtotalUpdate(items: seq<InvoiceItem>, i: nat, item: InvoiceItem)
    requires i < |items|
    ensures Subtotal(items[i := item]) == Subtotal(items) - items[i].total + item.total
  {
    assert LineTotals(items[i := item]) == LineTotals(items)[i := item.total];
    SumUpdate(LineTotals(items), i, item.total);
  }

  /** Appending one line adds its total to the subtotal. */
  lemma SubtotalAppend(items: seq<InvoiceItem>, item: InvoiceItem)
    ensures Subtotal(items + [item]) == Subtotal(items) + item.total
  {
    assert LineTotals(items + [item]) == LineTotals(items) + [item.total];
    SumAppend(LineTotals(items), item.total);
  }

  /** Removing one line takes its total out of the subtotal. */
  lemma SubtotalRemoveAt(items: seq<InvoiceItem>, i: nat)
    requires i < |items|
    ensures Subtotal(RemoveAt(items, i)) == Subtotal(items) - items[i].total
  {
    assert LineTotals(RemoveAt(items, i)) == RemoveAt(LineTotals(items), i);
    SumRemoveAt(LineTotals(items), i);
  }

  /** With no negative quantity or price, the subtotal is not negative. */
  lemma SubtotalNonNegative(items: seq<InvoiceItem>)
    requires forall i :: 0 <= i < |items| ==> Consistent(items[i])
    requires forall i :: 0 <= i < |items| ==> items[i].quantity >= 0.0 && items[i].unitPrice >= 0.0
    ensures Subtotal(items) >= 0.0
  {
    SumNonNegative(LineTotals(items));
  }

  /** Appending a blank line and dropping the last line again restores the list. */
  lemma AddThenRemoveLast(items: seq<InvoiceItem>)
    ensures RemoveAt(items + [BlankItem], |items|) == items
  {
  }

  /** Every line's total is quantity times unit price. */
  predicate AllConsistent(items: seq<InvoiceItem>) {
    forall i :: 0 <= i < |items| ==> Consistent(items[i])
  }

  /** A line that lets the invoice be issued: described and with a positive total. */
  predicate Billable(item: InvoiceItem) {
    item.description != "" && item.total > 0.0
  }

  /** `INV-` followed by the five-digit number drawn at start-up. */
  function InvoiceNumber(random: real): (r: string)
    requires 0.0 <= random < 1.0
    ensures |r| == 9 && r[..4] == "INV-"
    ensures forall i :: 4 <= i < |r| ==> IsDigit(r[i])
  {
    var serial := (10000.0 + random * 90000.0).Floor;
    FiveDigits(serial);
    "INV-" + IntToString(serial)
  }

  /** Numbers from 10000 to 99999 render as five digits. */
  lemma FiveDigits(n: int)
    requires 10000 <= n <= 99999
    ensures |IntToString(n)| == 5
  {
    var d4 := n / 10;
    var d3 := d4 / 10;
    var d2 := d3 / 10;
    var d1 := d2 / 10;
    assert 1 <= d1 < 10 <= d2 < 100 <= d3 < 1000 <= d4 < 10000;
    assert |NatToString(d2)| == |NatToString(d1)| + 1 == 2;
    assert |NatToString(d4)| == |NatToString(d3)| + 1 == |NatToString(d2)| + 2;
    assert |NatToString(n)| == |NatToString(d4)| + 1;
  }

  /** The notes a fresh invoice carries. */
  const DefaultNotes := "Payment due within 14 days.\nPlease include the invoice number with your payment."

  /** The payment details a fresh invoice carries. */
  const DefaultPaymentDetails := "Bank: Yellow Bank\nAccount: 1234567890\nIBAN: YT12 3456 7890 1234"

  /** A field of the invoice header that `handleInputChange` writes by name. */
  datatype TextField =
    | ClientName | ClientCompany | ClientEmail | ClientAddress | ProjectName
    | InvoiceNumberField | Notes | PaymentDetails

  class InvoiceForm {
    var clientName: string
    var clientCompany: string
    var clientEmail: string
    var clientAddress: string
    var projectName: string
    var invoiceNumber: string
    var notes: string
    var paymentDetails: string
    var items: seq<InvoiceItem>
    var subtotal: real
    var tax: real
    var total: real

    /**
     * At least one line, every line total equal to quantity times unit
     * price, the subtotal equal to the sum of the line totals, the tax 10%
     * of it and the total the two together.
     */
    predicate Valid()
      reads this
    {
      |items| >= 1 && AllConsistent(items) &&
      subtotal == Subtotal(items) && tax == Tax(subtotal) && total == subtotal + tax
    }

    /** The initial state; `random` is the value `Math.random()` returned. */
    constructor (random: real)
      requires 0.0 <= random < 1.0
      ensures Valid()
      ensures clientName == "" && clientCompany == "" && clientEmail == "" && clientAddress == ""
      ensures projectName == "" && invoiceNumber == InvoiceNumber(random)
      ensures notes == DefaultNotes
      ensures paymentDetails == DefaultPaymentDetails
      ensures items == [BlankItem] && subtotal == 0.0 && tax == 0.0 && total == 0.0
    {
      var initial := [BlankItem];
      assert Subtotal(initial) == 0.0 by {
        SubtotalAppend([], BlankItem);
        assert [] + [BlankItem] == initial;
      }
      clientName, clientCompany, clientEmail, clientAddress, projectName := "", "", "", "", "";
      invoiceNumber := InvoiceNumber(random);
      notes := DefaultNotes;
      paymentDetails := DefaultPaymentDetails;
      items := initial;
      subtotal, tax, total := 0.0, 0.0, 0.0;
    }

    /** `handleInputChange`: write one header field. */
    method HandleInputChange(field: TextField, value: string)
      modifies this
      ensures clientName == (if field == ClientName then value else old(clientName))
      ensures clientCompany == (if field == ClientCompany then value else old(clientCompany))
      ensures clientEmail == (if field == ClientEmail then value else old(clientEmail))
      ensures clientAddress == (if field == ClientAddress then value else old(clientAddress))
      ensures projectName == (if field == ProjectName then value else old(projectName))
      ensures invoiceNumber == (if field == InvoiceNumberField then value else old(invoiceNumber))
      ensures notes == (if field == Notes then value else old(notes))
      ensures paymentDetails == (if field == PaymentDetails then value else old(paymentDetails))
      ensures items == old(items) && subtotal == old(subtotal) && tax == old(tax) && total == old(total)
    {
      match field
      case ClientName => clientName := value;
      case ClientCompany => clientCompany := value;
      case ClientEmail => clientEmail := value;
      case ClientAddress => clientAddress := value;
      case ProjectName => projectName := value;
      case InvoiceNumberField => invoiceNumber := value;
      case Notes => notes := value;
      case PaymentDetails => paymentDetails := value;
    }

    /** Store new lines and the subtotal, tax and total computed from them. */
    method SetItems(newItems: seq<InvoiceItem>)
      requires |newItems| >= 1 && AllConsistent(newItems)
      modifies this
      ensures Valid()
      ensures items == newItems && subtotal == Subtotal(newItems)
      ensures clientName == old(clientName) && clientCompany == old(clientCompany)
      ensures clientEmail == old(clientEmail) && clientAddress == old(clientAddress)
      ensures projectName == old(projectName) && invoiceNumber == old(invoiceNumber)
      ensures notes == old(notes) && paymentDetails == old(paymentDetails)
    {
      items := newItems;
      subtotal := Subtotal(newItems);
      tax := Tax(subtotal);
      total := subtotal + tax;
    }

    /**
     * `handleItemChange`: line `index` takes the edit and its total is
     * recomputed; the subtotal moves by the change of that line's total and
     * the tax and total follow.
     */
    method HandleItemChange(index: nat, field: ItemField)
      requires Valid() && index < |items|
      modifies this
      ensures Valid()
      ensures items == old(items)[index := EditedItem(old(items[index]), field)]
      ensures subtotal == old(subtotal) - old(items[index].total) + items[index].total
      ensures clientName == old(clientName) && clientCompany == old(clientCompany)
      ensures clientEmail == old(clientEmail) && clientAddress == old(clientAddress)
      ensures projectName == old(projectName) && invoiceNumber == old(invoiceNumber)
      ensures notes == old(notes) && paymentDetails == old(paymentDetails)
    {
      var edited := EditedItem(items[index], field);
      SubtotalUpdate(items, index, edited);
      SetItems(items[index := edited]);
    }

    /** `addItem`: append a blank line; the sums are left as they were. */
    method AddItem()
      requires Valid()
      modifies this
      ensures Valid()
      ensures items == old(items) + [BlankItem]
      ensures subtotal == old(subtotal) && tax == old(tax) && total == old(total)
      ensures clientName == old(clientName) && clientCompany == old(clientCompany)
      ensures clientEmail == old(clientEmail) && clientAddress == old(clientAddress)
      ensures projectName == old(projectName) && invoiceNumber == old(invoiceNumber)
      ensures notes == old(notes) && paymentDetails == old(paymentDetails)
    {
      SubtotalAppend(items, BlankItem);
      items := items + [BlankItem];
    }

    /**
     * `removeItem`: with a single line nothing changes; otherwise position
     * `index` leaves the list (an index that is not a position removes
     * nothing) and the sums are recomputed.
     */
    method RemoveItem(index: int)
      requires Valid()
      modifies this
      ensures Valid()
      ensures |old(items)| == 1 || !(0 <= index < |old(items)|) ==>
        items == old(items) && subtotal == old(subtotal) && tax == old(tax) && total == old(total)
      ensures |old(items)| > 1 && 0 <= index < |old(items)| ==>
        items == RemoveAt(old(items), index) && subtotal == old(subtotal) - old(items[index].total)
      ensures clientName == old(clientName) && clientCompany == old(clientCompany)
      ensures clientEmail == old(clientEmail) && clientAddress == old(clientAddress)
      ensures projectName == old(projectName) && invoiceNumber == old(invoiceNumber)
      ensures notes == old(notes) && paymentDetails == old(paymentDetails)
    {
      if |items| == 1 {
        return;
      }
      var newItems := items;
      if 0 <= index < |items| {
        SubtotalRemoveAt(items, index);
        newItems := RemoveAt(items, index);
      }
      SetItems(newItems);
    }

    /**
     * `isFormValid`: client name, company, email and invoice number present,
     * and at least one billable line.
     */
    predicate IsFormValid()
      reads this
    {
      clientName != "" && clientCompany != "" && clientEmail != "" && invoiceNumber != "" &&
      exists i :: 0 <= i < |items| && Billable(items[i])
    }
  }

  /** In a consistent form the total is the subtotal plus 10%. */
  lemma TotalIsSubtotalPlusTax(form: InvoiceForm)
    requires form.Valid()
    ensures form.total == form.subtotal * 1.1
    ensures form.subtotal == Subtotal(form.items)
  {
  }

  /**
   * A form whose lines are all blank cannot be issued, whatever the header
   * says: a blank line has no description and a zero total.
   */
  lemma BlankLinesNotBillable(form: InvoiceForm)
    requires forall i :: 0 <= i < |form.items| ==> form.items[i] == BlankItem
    ensures !form.IsFormValid()
  {
    assert forall i :: 0 <= i < |form.items| ==> !Billable(form.items[i]);
  }

  /** Describing a line and giving it a positive quantity and price makes it billable. */
  lemma EditsMakeBillable(item: InvoiceItem, text: string, quantity: real, unitPrice: real)
    requires text != "" && quantity > 0.0 && unitPrice > 0.0
    ensures Billable(EditedItem(EditedItem(EditedItem(item, Description(text)), Quantity(Some(quantity))),
                                UnitPrice(Some(unitPrice))))
  {
    var r := EditedItem(EditedItem(EditedItem(item, Description(text)), Quantity(Some(quantity))),
                        UnitPrice(Some(unitPrice)));
    assert r.total == LineTotal(quantity, unitPrice) == quantity * unitPrice;
  }

  /**
   * With the client name, company, email and invoice number filled in, a
   * form one of whose lines was described and given a positive quantity and
   * unit price is ready to issue.
   */
  lemma FilledFormIsValid(form: InvoiceForm, index: nat, item: InvoiceItem, text: string, quantity: real,
                          unitPrice: real)
    requires form.clientName != "" && form.clientCompany != "" && form.clientEmail != "" && form.invoiceNumber != ""
    requires text != "" && quantity > 0.0 && unitPrice > 0.0
    requires index < |form.items| && form.items[index] ==
      EditedItem(EditedItem(EditedItem(item, Description(text)), Quantity(Some(quantity))), UnitPrice(Some(unitPrice)))
    ensures form.IsFormValid()
  {
    EditsMakeBillable(item, text, quantity, unitPrice);
  }
}
