/**
 * The invoice-ledger logic of the create and update handlers
 * (api/invoiceRoute.go), with HTTP, JSON and the database stripped away:
 * each handler takes the decoded payload, the stored record (for an update)
 * and the current instant, and yields the record it would persist or the
 * kind of error it would answer with.
 */
module InvoiceRoute {
  import opened Wrappers
  import opened Models

  /** The error answers of the two handlers, by kind. */
  datatype Error = ValidationError | NotFound | InvalidDueDate | OverpaymentError

  /** CreateInvoicePayload; the due date arrives already parsed (the validator enforces its format). */
  datatype CreateInvoicePayload = CreateInvoicePayload(
    dueDate: Time,
    description: string,
    status: Status,
    items: seq<Item>,
    customerInfo: CustomerInfo,
    isDiscount: bool,
    discountPercentage: real,
    reminder: seq<Reminder>)

  /** UpdateInvoicePayload: every field is optional (a nil pointer is None). */
  datatype UpdateInvoicePayload = UpdateInvoicePayload(
    dueDate: Option<Time>,
    description: Option<string>,
    amount: Option<Money>,
    status: Option<Status>,
    items: Option<seq<Item>>,
    customerInfo: Option<CustomerInfo>,
    isDiscount: Option<bool>,
    discountPercentage: Option<real>,
    paidAmount: Option<Money>,
    note: Option<string>,
    isSettled: Option<bool>,
    isShared: Option<bool>)

  /** An update payload with no field set. */
  const NoChanges := UpdateInvoicePayload(None, None, None, None, None, None, None, None, None, None, None, None)

  /** An update payload that only records a payment. */
  function PaymentOnly(paid: Money): UpdateInvoicePayload
  {
    NoChanges.(paidAmount := Some(paid))
  }

  predicate IsPercentage(x: real)
  {
    0.0 <= x <= 100.0
  }

  /** The statuses the update validator admits (oneof=paid unpaid draft overdue). */
  predicate AdmittedStatus(s: Status)
  {
    s in {LowerPaid, LowerUnpaid, LowerDraft, LowerOverdue}
  }

  /** The validator's constraints on a create payload that the model can see. */
  predicate ValidCreatePayload(p: CreateInvoicePayload)
  {
    IsPercentage(p.discountPercentage)
  }

  /** The validator's constraints on an update payload that the model can see. */
  predicate ValidUpdatePayload(p: UpdateInvoicePayload)
  {
    && (p.amount.Some? ==> p.amount.value > 0.0)
    && (p.status.Some? ==> AdmittedStatus(p.status.value))
    && (p.discountPercentage.Some? ==> IsPercentage(p.discountPercentage.value))
    && (p.paidAmount.Some? ==> p.paidAmount.value > 0.0)
  }

  function LineTotal(item: Item): Money
  {
    item.quantity as real * item.unitPrice
  }

  /** The sum of quantity times unit price over the items. */
  function Subtotal(items: seq<Item>): Money
  {
    if items == [] then 0.0 else LineTotal(items[0]) + Subtotal(items[1..])
  }

  lemma {:induction false} SubtotalAppend(items: seq<Item>, item: Item)
    ensures Subtotal(items + [item]) == Subtotal(items) + LineTotal(item)
  {
    if items == [] {
      assert items + [item] == [item];
    } else {
      assert (items + [item])[1..] == items[1..] + [item];
      SubtotalAppend(items[1..], item);
    }
  }

  /** The accumulation loop both handlers run over the items. */
  method SumItems(items: seq<Item>) returns (totalAmount: Money)
    ensures totalAmount == Subtotal(items)
  {
    totalAmount := 0.0;
    for i := 0 to |items|
      invariant totalAmount == Subtotal(items[..i])
    {
      assert items[..i + 1] == items[..i] + [items[i]];
      SubtotalAppend(items[..i], items[i]);
      totalAmount := totalAmount + LineTotal(items[i]);
    }
    assert items[..|items|] == items;
  }

  /** A total less the given percentage of itself. */
  function Discounted(total: Money, percentage: real): Money
  {
    total - total * percentage / 100.0
  }

  /** The amount of a new invoice: the subtotal, discounted when the flag is set. */
  function InvoiceTotal(items: seq<Item>, isDiscount: bool, percentage: real): Money
  {
    if isDiscount then Discounted(Subtotal(items), percentage) else Subtotal(items)
  }

  // ---------------------------------------------------------------------------
  // Create

  /** The record CreateInvoice builds, or its error answer. */
  function Create(p: CreateInvoicePayload, now: Time, id: Uuid): Result<Invoice, Error>
  {
    if !ValidCreatePayload(p) then Failure(ValidationError)
    else if now >= p.dueDate then Failure(InvalidDueDate)
    else
      var amount := InvoiceTotal(p.items, p.isDiscount, p.discountPercentage);
      Success(Invoice(
        invoiceId := id,
        dueDate := p.dueDate,
        description := p.description,
        amount := amount,
        status := Created,
        outstandingAmount := amount,
        paymentHistory := [],
        invoiceHistory := [InvoiceHistory(Created, now)],
        createdBy := 1,
        items := p.items,
        reminders := [],
        isDiscount := p.isDiscount,
        discountPercentage := p.discountPercentage,
        note := "",
        isSettled := false,
        isShared := false,
        customerInfo := p.customerInfo))
  }

  /** The non-I/O part of the CreateInvoice handler. */
  method CreateInvoice(p: CreateInvoicePayload, now: Time, id: Uuid) returns (r: Result<Invoice, Error>)
    ensures r == Create(p, now, id)
  {
    if !ValidCreatePayload(p) {
      return Failure(ValidationError);
    }
    if now >= p.dueDate {
      return Failure(InvalidDueDate);
    }
    var totalAmount := SumItems(p.items);
    if p.isDiscount {
      totalAmount := totalAmount - totalAmount * p.discountPercentage / 100.0;
    }
    assert totalAmount == InvoiceTotal(p.items, p.isDiscount, p.discountPercentage);
    var invoiceHistory := [InvoiceHistory(Created, now)];
    var invoice := Invoice(
      invoiceId := id,
      dueDate := p.dueDate,
      description := p.description,
      amount := totalAmount,
      status := Created,
      outstandingAmount := totalAmount,
      paymentHistory := [],
      invoiceHistory := invoiceHistory,
      createdBy := 1,
      items := p.items,
      reminders := [],
      isDiscount := p.isDiscount,
      discountPercentage := p.discountPercentage,
      note := "",
      isSettled := false,
      isShared := false,
      customerInfo := p.customerInfo);
    return Success(invoice);
  }

  // ---------------------------------------------------------------------------
  // Update, as a chain of steps on the stored record

  /** A supplied due date that differs from the stored one must lie strictly after now. */
  predicate DueDateRejected(inv: Invoice, dueDate: Option<Time>, now: Time)
  {
    dueDate.Some? && dueDate.value != inv.dueDate && now >= dueDate.value
  }

  function ApplyDueDate(inv: Invoice, dueDate: Option<Time>): Invoice
  {
    if dueDate.Some? && dueDate.value != inv.dueDate then inv.(dueDate := dueDate.value) else inv
  }

  /** A direct status change, logged in the invoice history when it changes anything. */
  function ApplyStatus(inv: Invoice, status: Option<Status>, now: Time): Invoice
  {
    if status.Some? && status.value != inv.status then
      inv.(status := status.value,
           invoiceHistory := inv.invoiceHistory + [InvoiceHistory(status.value, now)])
    else inv
  }

  /** The guard in front of the item edit, as written (a disjunction). */
  predicate ItemEditAllowed(s: Status)
  {
    s != PartialPayment || s != FullPayment
  }

  /** The percentage taken off when the discount flag is supplied with new items. */
  function EffectiveDiscountPercentage(inv: Invoice, p: UpdateInvoicePayload): real
  {
    if p.discountPercentage.Some? then p.discountPercentage.value
    else if inv.discountPercentage != 0.0 then inv.discountPercentage
    else 0.0
  }

  /** The item and discount edit: new items recompute the amount; the outstanding amount stays. */
  function ApplyItems(inv: Invoice, p: UpdateInvoicePayload): Invoice
  {
    if ItemEditAllowed(inv.status) && p.items.Some? then
      var subtotal := Subtotal(p.items.value);
      var flagged :=
        if p.isDiscount.Some? && p.discountPercentage.Some? then
          inv.(isDiscount := p.isDiscount.value, discountPercentage := p.discountPercentage.value)
        else inv;
      var total :=
        if p.isDiscount.Some? then Discounted(subtotal, EffectiveDiscountPercentage(inv, p))
        else subtotal;
      flagged.(amount := total, items := p.items.value)
    else inv
  }

  function ApplyCustomerInfo(inv: Invoice, info: Option<CustomerInfo>): Invoice
  {
    if info.Some? then inv.(customerInfo := info.value) else inv
  }

  /** A supplied payment is looked at only while something is outstanding. */
  predicate PaymentApplies(inv: Invoice, paid: Option<Money>)
  {
    paid.Some? && inv.outstandingAmount > 0.0
  }

  predicate Overpaid(inv: Invoice, paid: Option<Money>)
  {
    PaymentApplies(inv, paid) && paid.value > inv.outstandingAmount
  }

  /** The status a payment leaves behind, from the balance after it. */
  function PaymentStatus(balance: Money): Status
  {
    if balance == 0.0 then FullPayment else PartialPayment
  }

  function ApplyPayment(inv: Invoice, paid: Option<Money>, now: Time): Invoice
  {
    if PaymentApplies(inv, paid) then
      var balance := inv.outstandingAmount - paid.value;
      var action := PaymentStatus(balance);
      inv.(outstandingAmount := balance,
           paymentHistory := inv.paymentHistory + [PaymentHistory(paid.value, balance, now)],
           status := action,
           invoiceHistory := inv.invoiceHistory + [InvoiceHistory(action, now)])
    else inv
  }

  function ApplyFlagsAndNote(inv: Invoice, p: UpdateInvoicePayload): Invoice
  {
    var settled := if p.isSettled.Some? then inv.(isSettled := p.isSettled.value) else inv;
    var shared := if p.isShared.Some? then settled.(isShared := p.isShared.value) else settled;
    if p.note.Some? then shared.(note := p.note.value) else shared
  }

  /** The stored record after the steps that come before the payment. */
  function Edited(inv: Invoice, p: UpdateInvoicePayload, now: Time): Invoice
  {
    ApplyCustomerInfo(ApplyItems(ApplyStatus(ApplyDueDate(inv, p.dueDate), p.status, now), p), p.customerInfo)
  }

  /**
   * The record UpdateInvoice hands to the store, or its error answer. The
   * payload is validated before the stored record is looked up; any error
   * returns before anything is written.
   */
  function Update(stored: Option<Invoice>, p: UpdateInvoicePayload, now: Time): Result<Invoice, Error>
  {
    if !ValidUpdatePayload(p) then Failure(ValidationError)
    else if stored.None? then Failure(NotFound)
    else if DueDateRejected(stored.value, p.dueDate, now) then Failure(InvalidDueDate)
    else if Overpaid(Edited(stored.value, p, now), p.paidAmount) then Failure(OverpaymentError)
    else Success(ApplyFlagsAndNote(ApplyPayment(Edited(stored.value, p, now), p.paidAmount, now), p))
  }

  /** Lines 317-349 of the handler: the items and discount edit. */
  method EditItems(inv: Invoice, p: UpdateInvoicePayload) returns (edited: Invoice)
    ensures edited == ApplyItems(inv, p)
  {
    edited := inv;
    if edited.status != PartialPayment || edited.status != FullPayment {
      if p.items.Some? {
        var totalAmount := SumItems(p.items.value);
        if p.isDiscount.Some? {
          var discountPercentage: real;
          if p.discountPercentage.Some? {
            discountPercentage := p.discountPercentage.value;
            edited := edited.(isDiscount := p.isDiscount.value);
            edited := edited.(discountPercentage := discountPercentage);
          } else if edited.discountPercentage != 0.0 {
            discountPercentage := edited.discountPercentage;
          } else {
            discountPercentage := 0.0;
          }
          totalAmount := totalAmount - totalAmount * discountPercentage / 100.0;
        }
        edited := edited.(amount := totalAmount);
        edited := edited.(items := p.items.value);
      }
    }
  }

  /** Lines 356-397 of the handler: the overpayment check and the payment record. */
  method RecordPayment(inv: Invoice, paidAmount: Option<Money>, now: Time) returns (r: Result<Invoice, Error>)
    ensures r == if Overpaid(inv, paidAmount) then Failure(OverpaymentError)
                 else Success(ApplyPayment(inv, paidAmount, now))
  {
    var oldInvoice := inv;
    if paidAmount.Some? && oldInvoice.outstandingAmount > 0.0 {
      var paymentHistory := oldInvoice.paymentHistory;
      if paidAmount.value > oldInvoice.outstandingAmount {
        return Failure(OverpaymentError);
      }
      oldInvoice := oldInvoice.(outstandingAmount := oldInvoice.outstandingAmount - paidAmount.value);
      paymentHistory := paymentHistory + [PaymentHistory(paidAmount.value, oldInvoice.outstandingAmount, now)];
      oldInvoice := oldInvoice.(paymentHistory := paymentHistory);
      var action := if oldInvoice.outstandingAmount == 0.0 then FullPayment else PartialPayment;
      oldInvoice := oldInvoice.(status := action);
      var existingHistory := oldInvoice.invoiceHistory + [InvoiceHistory(action, now)];
      oldInvoice := oldInvoice.(invoiceHistory := existingHistory);
    }
    return Success(oldInvoice);
  }

  /** The non-I/O part of the UpdateInvoice handler: it edits its copy of the stored record field by field. */
  method UpdateInvoice(stored: Option<Invoice>, p: UpdateInvoicePayload, now: Time)
    returns (r: Result<Invoice, Error>)
    ensures r == Update(stored, p, now)
  {
    if !ValidUpdatePayload(p) {
      return Failure(ValidationError);
    }
    if stored.None? {
      return Failure(NotFound);
    }
    var oldInvoice := stored.value;

    if p.dueDate.Some? {
      var dueDate := p.dueDate.value;
      if oldInvoice.dueDate != dueDate {
        if now >= dueDate {
          return Failure(InvalidDueDate);
        }
        oldInvoice := oldInvoice.(dueDate := dueDate);
      }
    }
    ghost var dated := ApplyDueDate(stored.value, p.dueDate);
    assert oldInvoice == dated;

    if p.status.Some? {
      if oldInvoice.status != p.status.value {
        oldInvoice := oldInvoice.(status := p.status.value);
        var existingHistory := oldInvoice.invoiceHistory;
        existingHistory := existingHistory + [InvoiceHistory(p.status.value, now)];
        oldInvoice := oldInvoice.(invoiceHistory := existingHistory);
      }
    }
    ghost var statused := ApplyStatus(dated, p.status, now);
    assert oldInvoice == statused;

    oldInvoice := EditItems(oldInvoice, p);

    if p.customerInfo.Some? {
      oldInvoice := oldInvoice.(customerInfo := p.customerInfo.value);
    }
    assert oldInvoice == Edited(stored.value, p, now);

    var paid := RecordPayment(oldInvoice, p.paidAmount, now);
    if paid.Failure? {
      assert Update(stored, p, now) == Failure(OverpaymentError);
      return Failure(paid.error);
    }
    oldInvoice := paid.value;
    ghost var settled := ApplyPayment(Edited(stored.value, p, now), p.paidAmount, now);
    assert oldInvoice == settled;

    if p.isSettled.Some? {
      oldInvoice := oldInvoice.(isSettled := p.isSettled.value);
    }
    if p.isShared.Some? {
      oldInvoice := oldInvoice.(isShared := p.isShared.value);
    }
    if p.note.Some? {
      oldInvoice := oldInvoice.(note := p.note.value);
    }
    assert oldInvoice == ApplyFlagsAndNote(settled, p);
    assert Update(stored, p, now) == Success(ApplyFlagsAndNote(settled, p));
    return Success(oldInvoice);
  }
}
