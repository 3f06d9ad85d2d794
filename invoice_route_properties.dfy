/**
 * What the create and update handlers promise about the records they
 * produce: amounts, due-date rules, payment application, histories, the
 * fields an update leaves alone, and the ledger invariants that every
 * accepted update keeps.
 */
module InvoiceRouteProperties {
  import opened Wrappers
  import opened Models
  import opened InvoiceRoute

  // ---------------------------------------------------------------------------
  // Amounts

  /** Items with no negative quantity or price never sum to a negative amount. */
  lemma {:induction false} SubtotalNonNegative(items: seq<Item>)
    requires forall i :: 0 <= i < |items| ==> items[i].quantity >= 0 && items[i].unitPrice >= 0.0
    ensures Subtotal(items) >= 0.0
  {
    if items != [] {
      assert items[0].quantity as real >= 0.0;
      assert LineTotal(items[0]) >= 0.0;
      SubtotalNonNegative(items[1..]);
    }
  }

  /** Taking off a percentage in [0, 100] keeps a non-negative total within [0, total]. */
  lemma DiscountedBounds(total: Money, percentage: real)
    requires IsPercentage(percentage)
    ensures Discounted(total, percentage) == total * (100.0 - percentage) / 100.0
    ensures total >= 0.0 ==> 0.0 <= Discounted(total, percentage) <= total
    ensures percentage == 0.0 ==> Discounted(total, percentage) == total
    ensures percentage == 100.0 ==> Discounted(total, percentage) == 0.0
  {
  }

  // ---------------------------------------------------------------------------
  // Create

  /** Create fails exactly on an out-of-range percentage, then on a due date that is not after now. */
  lemma CreateOutcome(p: CreateInvoicePayload, now: Time, id: Uuid)
    ensures Create(p, now, id) == Failure(ValidationError) <==> !IsPercentage(p.discountPercentage)
    ensures Create(p, now, id) == Failure(InvalidDueDate)
        <==> IsPercentage(p.discountPercentage) && p.dueDate <= now
    ensures Create(p, now, id).Success? <==> IsPercentage(p.discountPercentage) && now < p.dueDate
  {
  }

  /** The record a successful create builds. */
  lemma CreatedInvoice(p: CreateInvoicePayload, now: Time, id: Uuid)
    requires Create(p, now, id).Success?
    ensures var inv := Create(p, now, id).value;
      && inv.amount == (if p.isDiscount then Discounted(Subtotal(p.items), p.discountPercentage)
                        else Subtotal(p.items))
      && inv.status == Created
      && inv.outstandingAmount == inv.amount
      && inv.invoiceHistory == [InvoiceHistory(Created, now)]
      && inv.paymentHistory == []
      && inv.invoiceId == id && inv.dueDate == p.dueDate && now < inv.dueDate
      && inv.items == p.items && inv.customerInfo == p.customerInfo
      && inv.isDiscount == p.isDiscount && inv.discountPercentage == p.discountPercentage
      && inv.reminders == []
  {
  }

  /** With no negative item, a new invoice's amount lies between zero and its subtotal. */
  lemma CreatedAmountBounds(p: CreateInvoicePayload, now: Time, id: Uuid)
    requires Create(p, now, id).Success?
    requires forall i :: 0 <= i < |p.items| ==> p.items[i].quantity >= 0 && p.items[i].unitPrice >= 0.0
    ensures 0.0 <= Create(p, now, id).value.amount <= Subtotal(p.items)
  {
    SubtotalNonNegative(p.items);
    DiscountedBounds(Subtotal(p.items), p.discountPercentage);
  }

  /** Two items at 50 with no discount, due a week ahead. */
  lemma CreateScenario(now: Time, info: CustomerInfo, id: Uuid)
    ensures var p := CreateInvoicePayload(now + 7, "", Created, [Item("consulting", 2, 50.0)], info, false, 0.0, [AWeek]);
      var r := Create(p, now, id);
      && r.Success?
      && r.value.amount == 100.0 && r.value.outstandingAmount == 100.0
      && r.value.status == Created && r.value.invoiceHistory == [InvoiceHistory(Created, now)]
  {
    var items := [Item("consulting", 2, 50.0)];
    assert items[1..] == [];
    assert Subtotal(items) == 100.0;
  }

  /** With a valid payload, a due date at or before now is rejected and any later one accepted. */
  lemma CreateDueDateBoundary(p: CreateInvoicePayload, now: Time, id: Uuid)
    requires ValidCreatePayload(p)
    ensures p.dueDate <= now ==> Create(p, now, id) == Failure(InvalidDueDate)
    ensures p.dueDate > now ==> Create(p, now, id).Success?
  {
  }

  /**
   * The validator's oneof rule compares the status string: exactly the four
   * lower-case values pass, and none of them is a declared constant.
   */
  lemma AdmittedStatusText(s: Status)
    ensures AdmittedStatus(s) <==> s.Text() in ["paid", "unpaid", "draft", "overdue"]
    ensures AdmittedStatus(s) ==> !s.IsConstant()
  {
  }

  /** The history entry a direct status change appends, if any. */
  function DirectStatusEntries(inv: Invoice, status: Option<Status>, now: Time): seq<InvoiceHistory>
  {
    if status.Some? && status.value != inv.status then [InvoiceHistory(status.value, now)] else []
  }

  /**
   * Field by field, the record an accepted update persists: a reference
   * definition of the update, independent of the order of its steps.
   */
  function UpdatedFields(inv: Invoice, p: UpdateInvoicePayload, now: Time): Invoice
  {
    var pays := PaymentApplies(inv, p.paidAmount);
    var balance := if pays then inv.outstandingAmount - p.paidAmount.value else inv.outstandingAmount;
    var status := if pays then PaymentStatus(balance) else p.status.GetOr(inv.status);
    var discountStored := p.items.Some? && p.isDiscount.Some? && p.discountPercentage.Some?;
    Invoice(
      invoiceId := inv.invoiceId,
      dueDate := p.dueDate.GetOr(inv.dueDate),
      description := inv.description,
      amount :=
        if p.items.None? then inv.amount
        else if p.isDiscount.Some?
        then Discounted(Subtotal(p.items.value), p.discountPercentage.GetOr(inv.discountPercentage))
        else Subtotal(p.items.value),
      status := status,
      outstandingAmount := balance,
      paymentHistory :=
        inv.paymentHistory + (if pays then [PaymentHistory(p.paidAmount.value, balance, now)] else []),
      invoiceHistory :=
        inv.invoiceHistory + DirectStatusEntries(inv, p.status, now)
        + (if pays then [InvoiceHistory(status, now)] else []),
      createdBy := inv.createdBy,
      items := p.items.GetOr(inv.items),
      reminders := inv.reminders,
      isDiscount := if discountStored then p.isDiscount.value else inv.isDiscount,
      discountPercentage := if discountStored then p.discountPercentage.value else inv.discountPercentage,
      note := p.note.GetOr(inv.note),
      isSettled := p.isSettled.GetOr(inv.isSettled),
      isShared := p.isShared.GetOr(inv.isShared),
      customerInfo := p.customerInfo.GetOr(inv.customerInfo))
  }

  lemma DueDateStep(inv: Invoice, dueDate: Option<Time>)
    ensures ApplyDueDate(inv, dueDate) == inv.(dueDate := dueDate.GetOr(inv.dueDate))
  {
  }

  lemma StatusStep(inv: Invoice, status: Option<Status>, now: Time)
    ensures ApplyStatus(inv, status, now)
         == inv.(status := status.GetOr(inv.status),
                 invoiceHistory := inv.invoiceHistory + DirectStatusEntries(inv, status, now))
  {
  }

  lemma ItemsStep(inv: Invoice, p: UpdateInvoicePayload)
    ensures var discountStored := p.items.Some? && p.isDiscount.Some? && p.discountPercentage.Some?;
      ApplyItems(inv, p)
      == inv.(amount :=
                if p.items.None? then inv.amount
                else if p.isDiscount.Some?
                then Discounted(Subtotal(p.items.value), p.discountPercentage.GetOr(inv.discountPercentage))
                else Subtotal(p.items.value),
              items := p.items.GetOr(inv.items),
              isDiscount := if discountStored then p.isDiscount.value else inv.isDiscount,
              discountPercentage := if discountStored then p.discountPercentage.value else inv.discountPercentage)
  {
  }

  lemma PaymentStep(inv: Invoice, paid: Option<Money>, now: Time)
    ensures var pays := PaymentApplies(inv, paid);
      var balance := if pays then inv.outstandingAmount - paid.value else inv.outstandingAmount;
      var status := if pays then PaymentStatus(balance) else inv.status;
      ApplyPayment(inv, paid, now)
      == inv.(outstandingAmount := balance,
              paymentHistory := inv.paymentHistory + (if pays then [PaymentHistory(paid.value, balance, now)] else []),
              status := status,
              invoiceHistory := inv.invoiceHistory + (if pays then [InvoiceHistory(status, now)] else []))
  {
  }

  lemma FlagsStep(inv: Invoice, p: UpdateInvoicePayload)
    ensures ApplyFlagsAndNote(inv, p)
         == inv.(isSettled := p.isSettled.GetOr(inv.isSettled),
                 isShared := p.isShared.GetOr(inv.isShared),
                 note := p.note.GetOr(inv.note))
  {
  }

  /** The steps before the payment, in closed form. */
  lemma EditedFields(inv: Invoice, p: UpdateInvoicePayload, now: Time)
    ensures var e := Edited(inv, p, now);
      && e == UpdatedFields(inv, p.(paidAmount := None), now).(
                isSettled := inv.isSettled, isShared := inv.isShared, note := inv.note)
  {
    var dated := ApplyDueDate(inv, p.dueDate);
    DueDateStep(inv, p.dueDate);
    var statused := ApplyStatus(dated, p.status, now);
    StatusStep(dated, p.status, now);
    assert DirectStatusEntries(dated, p.status, now) == DirectStatusEntries(inv, p.status, now);
    var itemized := ApplyItems(statused, p);
    ItemsStep(statused, p);
    var u := UpdatedFields(inv, p.(paidAmount := None), now);
    assert !PaymentApplies(inv, None);
    assert itemized.(customerInfo := p.customerInfo.GetOr(inv.customerInfo))
        == u.(isSettled := inv.isSettled, isShared := inv.isShared, note := inv.note);
  }

  /** The record after the payment step, before the flags and note. */
  function Settled(inv: Invoice, p: UpdateInvoicePayload, now: Time): Invoice
  {
    ApplyPayment(Edited(inv, p, now), p.paidAmount, now)
  }

  lemma SettledItemFields(inv: Invoice, p: UpdateInvoicePayload, now: Time)
    ensures var s, u := Settled(inv, p, now), UpdatedFields(inv, p, now);
      && s.amount == u.amount && s.items == u.items
      && s.isDiscount == u.isDiscount && s.discountPercentage == u.discountPercentage
  {
    EditedFields(inv, p, now);
    PaymentStep(Edited(inv, p, now), p.paidAmount, now);
  }

  lemma SettledPaymentFields(inv: Invoice, p: UpdateInvoicePayload, now: Time)
    ensures var s, u := Settled(inv, p, now), UpdatedFields(inv, p, now);
      && s.status == u.status && s.outstandingAmount == u.outstandingAmount
      && s.paymentHistory == u.paymentHistory && s.invoiceHistory == u.invoiceHistory
  {
    var e := Edited(inv, p, now);
    EditedFields(inv, p, now);
    assert e.outstandingAmount == inv.outstandingAmount;
    assert e.status == p.status.GetOr(inv.status);
    assert e.invoiceHistory == inv.invoiceHistory + DirectStatusEntries(inv, p.status, now);
    assert e.paymentHistory == inv.paymentHistory;
    PaymentStep(e, p.paidAmount, now);
  }

  lemma SettledOtherFields(inv: Invoice, p: UpdateInvoicePayload, now: Time)
    ensures var s, u := Settled(inv, p, now), UpdatedFields(inv, p, now);
      && s.invoiceId == u.invoiceId && s.dueDate == u.dueDate && s.description == u.description
      && s.createdBy == u.createdBy && s.reminders == u.reminders && s.customerInfo == u.customerInfo
      && s.note == inv.note && s.isSettled == inv.isSettled && s.isShared == inv.isShared
  {
    EditedFields(inv, p, now);
    PaymentStep(Edited(inv, p, now), p.paidAmount, now);
  }

  /** The steps of an accepted update, in closed form. */
  lemma StepsFieldwise(inv: Invoice, p: UpdateInvoicePayload, now: Time)
    ensures ApplyFlagsAndNote(Settled(inv, p, now), p) == UpdatedFields(inv, p, now)
  {
    SettledItemFields(inv, p, now);
    SettledPaymentFields(inv, p, now);
    SettledOtherFields(inv, p, now);
    FlagsStep(Settled(inv, p, now), p);
  }

  /** An update that raises no error persists exactly the field-by-field record. */
  lemma UpdateIsFieldwise(inv: Invoice, p: UpdateInvoicePayload, now: Time)
    requires ValidUpdatePayload(p) && !DueDateRejected(inv, p.dueDate, now)
    requires !Overpaid(inv, p.paidAmount)
    ensures Update(Some(inv), p, now) == Success(UpdatedFields(inv, p, now))
  {
    EditedFields(inv, p, now);
    assert !Overpaid(Edited(inv, p, now), p.paidAmount);
    StepsFieldwise(inv, p, now);
  }

  /** The update in terms of the stored record alone: its errors, in order, then the field-by-field record. */
  lemma UpdateReference(stored: Option<Invoice>, p: UpdateInvoicePayload, now: Time)
    ensures Update(stored, p, now)
         == if !ValidUpdatePayload(p) then Failure(ValidationError)
            else if stored.None? then Failure(NotFound)
            else if DueDateRejected(stored.value, p.dueDate, now) then Failure(InvalidDueDate)
            else if Overpaid(stored.value, p.paidAmount) then Failure(OverpaymentError)
            else Success(UpdatedFields(stored.value, p, now))
  {
    if ValidUpdatePayload(p) && stored.Some? && !DueDateRejected(stored.value, p.dueDate, now) {
      EditedFields(stored.value, p, now);
      assert Overpaid(Edited(stored.value, p, now), p.paidAmount) == Overpaid(stored.value, p.paidAmount);
      if !Overpaid(stored.value, p.paidAmount) {
        UpdateIsFieldwise(stored.value, p, now);
      }
    }
  }

  // ---------------------------------------------------------------------------
  // Update: errors and what is left alone

  /** Each error of an update, and exactly when it happens. */
  lemma UpdateErrors(stored: Option<Invoice>, p: UpdateInvoicePayload, now: Time)
    ensures Update(stored, p, now) == Failure(ValidationError) <==> !ValidUpdatePayload(p)
    ensures Update(stored, p, now) == Failure(NotFound) <==> ValidUpdatePayload(p) && stored.None?
    ensures Update(stored, p, now) == Failure(InvalidDueDate)
        <==> ValidUpdatePayload(p) && stored.Some?
             && p.dueDate.Some? && p.dueDate.value != stored.value.dueDate && now >= p.dueDate.value
    ensures Update(stored, p, now) == Failure(OverpaymentError)
        <==> ValidUpdatePayload(p) && stored.Some? && !DueDateRejected(stored.value, p.dueDate, now)
             && p.paidAmount.Some? && stored.value.outstandingAmount > 0.0
             && p.paidAmount.value > stored.value.outstandingAmount
  {
    UpdateReference(stored, p, now);
  }

  /** Supplying the stored due date is the same as not supplying one, even when that date has passed. */
  lemma UnchangedDueDateNotRechecked(inv: Invoice, p: UpdateInvoicePayload, now: Time)
    requires p.dueDate == Some(inv.dueDate)
    ensures Update(Some(inv), p, now) == Update(Some(inv), p.(dueDate := None), now)
  {
    var q := p.(dueDate := None);
    UpdateReference(Some(inv), p, now);
    UpdateReference(Some(inv), q, now);
    assert ValidUpdatePayload(q) == ValidUpdatePayload(p);
    assert !DueDateRejected(inv, p.dueDate, now) && !DueDateRejected(inv, q.dueDate, now);
    assert UpdatedFields(inv, p, now) == UpdatedFields(inv, q, now);
  }

  /** An update with no field set returns the stored record unchanged. */
  lemma NoChangesIsIdentity(inv: Invoice, now: Time)
    ensures Update(Some(inv), NoChanges, now) == Success(inv)
  {
    UpdateReference(Some(inv), NoChanges, now);
  }

  /** The payload's description and amount are validated but never applied. */
  lemma DescriptionAndAmountIgnored(stored: Option<Invoice>, p: UpdateInvoicePayload, now: Time,
                                    description: Option<string>, amount: Option<Money>)
    requires amount.Some? ==> amount.value > 0.0
    ensures Update(stored, p.(description := description, amount := amount), now)
         == Update(stored, p.(description := None, amount := None), now)
  {
    UpdateReference(stored, p.(description := description, amount := amount), now);
    UpdateReference(stored, p.(description := None, amount := None), now);
  }

  /** Every field the payload leaves out keeps its stored value; identity and description never change. */
  lemma UpdateFrame(inv: Invoice, p: UpdateInvoicePayload, now: Time)
    requires Update(Some(inv), p, now).Success?
    ensures var r := Update(Some(inv), p, now).value;
      && r.invoiceId == inv.invoiceId && r.description == inv.description
      && r.createdBy == inv.createdBy && r.reminders == inv.reminders
      && r.dueDate == p.dueDate.GetOr(inv.dueDate)
      && r.customerInfo == p.customerInfo.GetOr(inv.customerInfo)
      && r.note == p.note.GetOr(inv.note)
      && r.isSettled == p.isSettled.GetOr(inv.isSettled)
      && r.isShared == p.isShared.GetOr(inv.isShared)
      && (p.items.None? ==>
            r.items == inv.items && r.amount == inv.amount
            && r.isDiscount == inv.isDiscount && r.discountPercentage == inv.discountPercentage)
      && (p.paidAmount.None? ==>
            r.outstandingAmount == inv.outstandingAmount && r.paymentHistory == inv.paymentHistory)
  {
    UpdateReference(Some(inv), p, now);
    var u := UpdatedFields(inv, p, now);
    assert Update(Some(inv), p, now).value == u;
    assert p.paidAmount.None? ==> !PaymentApplies(inv, p.paidAmount);
  }

  // ---------------------------------------------------------------------------
  // Update: items and discount

  /** The guard in front of the item edit holds for every status. */
  lemma ItemGuardAlwaysTrue(s: Status)
    ensures ItemEditAllowed(s)
  {
  }

  /** The fallback chain for the percentage amounts to "supplied, else stored". */
  lemma EffectivePercentageSuppliedOrStored(inv: Invoice, p: UpdateInvoicePayload)
    ensures EffectiveDiscountPercentage(inv, p) == p.discountPercentage.GetOr(inv.discountPercentage)
  {
  }

  /**
   * New items replace the stored ones and recompute the amount, whatever the
   * status (a paid invoice included). The discount is taken off when the flag
   * is supplied, true or false; the flag and percentage are stored only when
   * both are supplied. The outstanding amount is not recomputed.
   */
  lemma ItemEditInAnyStatus(inv: Invoice, p: UpdateInvoicePayload, now: Time)
    requires Update(Some(inv), p, now).Success?
    requires p.items.Some?
    ensures var r := Update(Some(inv), p, now).value;
      && r.items == p.items.value
      && r.amount == (if p.isDiscount.Some?
                      then Discounted(Subtotal(p.items.value), p.discountPercentage.GetOr(inv.discountPercentage))
                      else Subtotal(p.items.value))
      && r.isDiscount == (if p.isDiscount.Some? && p.discountPercentage.Some? then p.isDiscount.value
                          else inv.isDiscount)
      && r.discountPercentage == (if p.isDiscount.Some? && p.discountPercentage.Some?
                                  then p.discountPercentage.value else inv.discountPercentage)
      && r.outstandingAmount == inv.outstandingAmount
                                - (if PaymentApplies(inv, p.paidAmount) then p.paidAmount.value else 0.0)
  {
    UpdateReference(Some(inv), p, now);
  }

  /** The amount and the outstanding amount are independent: an item edit can leave more outstanding than owed. */
  lemma ItemEditCanLeaveOutstandingAboveAmount(inv: Invoice, now: Time)
    requires inv.status == FullPayment || inv.status == Created
    requires inv.amount == 100.0 && inv.outstandingAmount == 100.0
    ensures var r := Update(Some(inv), NoChanges.(items := Some([Item("consulting", 1, 10.0)])), now);
      && r.Success?
      && r.value.amount == 10.0 && r.value.outstandingAmount == 100.0
      && r.value.outstandingAmount > r.value.amount
  {
    var items := [Item("consulting", 1, 10.0)];
    assert items[1..] == [];
    assert Subtotal(items) == 10.0;
  }

  // ---------------------------------------------------------------------------
  // Update: status and payments

  /** An accepted payment: the balance, the payment record, the derived status and its history entry. */
  lemma AcceptedPayment(inv: Invoice, p: UpdateInvoicePayload, now: Time)
    requires Update(Some(inv), p, now).Success?
    requires PaymentApplies(inv, p.paidAmount)
    ensures var r := Update(Some(inv), p, now).value;
      && r.outstandingAmount == inv.outstandingAmount - p.paidAmount.value
      && 0.0 <= r.outstandingAmount < inv.outstandingAmount
      && r.paymentHistory == inv.paymentHistory + [PaymentHistory(p.paidAmount.value, r.outstandingAmount, now)]
      && r.status == (if r.outstandingAmount == 0.0 then FullPayment else PartialPayment)
      && r.invoiceHistory == inv.invoiceHistory + DirectStatusEntries(inv, p.status, now)
                             + [InvoiceHistory(r.status, now)]
  {
    UpdateReference(Some(inv), p, now);
  }

  /** Without an applicable payment the supplied status, if any, is the new status, logged once when it differs. */
  lemma DirectStatusChange(inv: Invoice, p: UpdateInvoicePayload, now: Time)
    requires Update(Some(inv), p, now).Success?
    requires !PaymentApplies(inv, p.paidAmount)
    ensures var r := Update(Some(inv), p, now).value;
      && r.status == p.status.GetOr(inv.status)
      && r.invoiceHistory == inv.invoiceHistory + DirectStatusEntries(inv, p.status, now)
      && |r.invoiceHistory| == |inv.invoiceHistory| + (if p.status.Some? && p.status.value != inv.status then 1 else 0)
  {
    UpdateReference(Some(inv), p, now);
  }

  /** A payment in the same call overrides a direct status change; both are logged, in that order. */
  lemma PaymentStatusOverridesDirectStatus(inv: Invoice, p: UpdateInvoicePayload, now: Time)
    requires Update(Some(inv), p, now).Success?
    requires p.status.Some? && p.status.value != inv.status
    requires PaymentApplies(inv, p.paidAmount)
    ensures var r := Update(Some(inv), p, now).value;
      && (r.status == FullPayment || r.status == PartialPayment)
      && r.status != p.status.value
      && r.invoiceHistory == inv.invoiceHistory + [InvoiceHistory(p.status.value, now), InvoiceHistory(r.status, now)]
  {
    AcceptedPayment(inv, p, now);
  }

  /** A payment is ignored, and not checked against the balance, when nothing is outstanding. */
  lemma PaymentIgnoredWhenNothingOutstanding(inv: Invoice, p: UpdateInvoicePayload, now: Time)
    requires inv.outstandingAmount <= 0.0
    requires p.paidAmount.Some? ==> p.paidAmount.value > 0.0
    ensures Update(Some(inv), p, now) == Update(Some(inv), p.(paidAmount := None), now)
  {
    UpdateReference(Some(inv), p, now);
    UpdateReference(Some(inv), p.(paidAmount := None), now);
  }

  /** The outstanding amount never grows; it shrinks exactly when a payment applies, and never below zero. */
  lemma OutstandingNeverIncreases(inv: Invoice, p: UpdateInvoicePayload, now: Time)
    requires Update(Some(inv), p, now).Success?
    ensures var r := Update(Some(inv), p, now).value;
      && r.outstandingAmount <= inv.outstandingAmount
      && (r.outstandingAmount < inv.outstandingAmount <==> PaymentApplies(inv, p.paidAmount))
      && (inv.outstandingAmount >= 0.0 ==> r.outstandingAmount >= 0.0)
  {
    UpdateReference(Some(inv), p, now);
  }

  /** Paying 90, 50 or 100 against 90 outstanding. */
  lemma PaymentScenarios(inv: Invoice, now: Time)
    requires inv.outstandingAmount == 90.0
    ensures var r := Update(Some(inv), PaymentOnly(90.0), now);
      && r.Success? && r.value.outstandingAmount == 0.0 && r.value.status == FullPayment
      && r.value.paymentHistory == inv.paymentHistory + [PaymentHistory(90.0, 0.0, now)]
    ensures var r := Update(Some(inv), PaymentOnly(50.0), now);
      r.Success? && r.value.outstandingAmount == 40.0 && r.value.status == PartialPayment
    ensures Update(Some(inv), PaymentOnly(100.0), now) == Failure(OverpaymentError)
  {
    UpdateReference(Some(inv), PaymentOnly(90.0), now);
    UpdateReference(Some(inv), PaymentOnly(50.0), now);
    UpdateReference(Some(inv), PaymentOnly(100.0), now);
  }

  /** The sum of a sequence of amounts. */
  function Sum(xs: seq<Money>): Money
  {
    if xs == [] then 0.0 else xs[0] + Sum(xs[1..])
  }

  lemma {:induction false} SumOfPositives(xs: seq<Money>)
    requires forall i :: 0 <= i < |xs| ==> xs[i] > 0.0
    ensures xs != [] ==> Sum(xs) > 0.0
    ensures Sum(xs) >= 0.0
  {
    if xs != [] {
      SumOfPositives(xs[1..]);
    }
  }

  /** Updates that each carry one payment, applied in order until one is refused. */
  function PayInSequence(inv: Invoice, payments: seq<Money>, now: Time): Result<Invoice, Error>
    decreases |payments|
  {
    if payments == [] then Success(inv)
    else
      match Update(Some(inv), PaymentOnly(payments[0]), now)
      case Failure(e) => Failure(e)
      case Success(next) => PayInSequence(next, payments[1..], now)
  }

  /**
   * Positive payments that add up to exactly the outstanding amount are all
   * accepted and leave the invoice fully paid, with one payment record and
   * one history entry per payment.
   */
  lemma {:induction false} SequentialPaymentsSettle(inv: Invoice, payments: seq<Money>, now: Time)
    requires payments != []
    requires forall i :: 0 <= i < |payments| ==> payments[i] > 0.0
    requires Sum(payments) == inv.outstandingAmount
    ensures PayInSequence(inv, payments, now).Success?
    ensures var r := PayInSequence(inv, payments, now).value;
      && r.outstandingAmount == 0.0 && r.status == FullPayment
      && inv.paymentHistory <= r.paymentHistory
      && |r.paymentHistory| == |inv.paymentHistory| + |payments|
      && inv.invoiceHistory <= r.invoiceHistory
      && |r.invoiceHistory| == |inv.invoiceHistory| + |payments|
    decreases |payments|
  {
    var rest := payments[1..];
    assert forall i :: 0 <= i < |rest| ==> rest[i] == payments[i + 1];
    SumOfPositives(rest);
    SumOfPositives(payments);
    var p := PaymentOnly(payments[0]);
    assert ValidUpdatePayload(p);
    assert PaymentApplies(inv, p.paidAmount);
    assert Update(Some(inv), p, now).Success?;
    AcceptedPayment(inv, p, now);
    var next := Update(Some(inv), p, now).value;
    assert next.outstandingAmount == Sum(rest);
    if rest != [] {
      SequentialPaymentsSettle(next, rest, now);
    }
  }

  // ---------------------------------------------------------------------------
  // Histories and the ledger invariants

  /** Where an accepted update's invoice history comes from. */
  lemma InvoiceHistoryGrowth(inv: Invoice, p: UpdateInvoicePayload, now: Time)
    requires Update(Some(inv), p, now).Success?
    ensures var r := Update(Some(inv), p, now).value;
      r.invoiceHistory == inv.invoiceHistory + DirectStatusEntries(inv, p.status, now)
                          + (if PaymentApplies(inv, p.paidAmount) then [InvoiceHistory(r.status, now)] else [])
  {
    if PaymentApplies(inv, p.paidAmount) {
      AcceptedPayment(inv, p, now);
    } else {
      DirectStatusChange(inv, p, now);
    }
  }

  /** Both histories only grow, by at most two status entries and one payment record per update. */
  lemma HistoriesAppendOnly(inv: Invoice, p: UpdateInvoicePayload, now: Time)
    requires Update(Some(inv), p, now).Success?
    ensures var r := Update(Some(inv), p, now).value;
      && inv.invoiceHistory <= r.invoiceHistory
      && |r.invoiceHistory| <= |inv.invoiceHistory| + 2
      && inv.paymentHistory <= r.paymentHistory
      && |r.paymentHistory| <= |inv.paymentHistory| + 1
  {
    UpdateReference(Some(inv), p, now);
    var r := UpdatedFields(inv, p, now);
    var added := DirectStatusEntries(inv, p.status, now)
                 + (if PaymentApplies(inv, p.paidAmount) then [InvoiceHistory(r.status, now)] else []);
    assert r.invoiceHistory == inv.invoiceHistory + added;
    assert r.invoiceHistory[..|inv.invoiceHistory|] == inv.invoiceHistory;
    assert r.paymentHistory[..|inv.paymentHistory|] == inv.paymentHistory;
  }

  /** Invoice-history entries in the order of their dates, none later than now. */
  ghost predicate ChronologicalUntil(h: seq<InvoiceHistory>, now: Time)
  {
    && (forall i, j :: 0 <= i < j < |h| ==> h[i].actionDate <= h[j].actionDate)
    && (forall i :: 0 <= i < |h| ==> h[i].actionDate <= now)
  }

  /** Each payment record is positive and carries the balance left after it; the last balance is the outstanding amount. */
  ghost predicate PaymentLedgerConsistent(ph: seq<PaymentHistory>, outstanding: Money)
  {
    && (forall i :: 0 <= i < |ph| ==> ph[i].amountPaid > 0.0)
    && (forall i :: 0 < i < |ph| ==> ph[i].amountBalance == ph[i - 1].amountBalance - ph[i].amountPaid)
    && (|ph| > 0 ==> ph[|ph| - 1].amountBalance == outstanding)
  }

  /** The invariants of a stored invoice that the handlers keep. */
  ghost predicate LedgerInvariant(inv: Invoice, now: Time)
  {
    && |inv.invoiceHistory| >= 1
    && inv.invoiceHistory[0].action == Created
    && ChronologicalUntil(inv.invoiceHistory, now)
    && PaymentLedgerConsistent(inv.paymentHistory, inv.outstandingAmount)
  }

  /** Recorded balances strictly decrease from one payment to the next. */
  lemma {:induction false} BalancesDecrease(ph: seq<PaymentHistory>, outstanding: Money, i: nat, j: nat)
    requires PaymentLedgerConsistent(ph, outstanding)
    requires i < j < |ph|
    ensures ph[j].amountBalance < ph[i].amountBalance
    decreases j - i
  {
    if i < j - 1 {
      BalancesDecrease(ph, outstanding, i, j - 1);
    }
  }

  lemma CreateEstablishesInvariant(p: CreateInvoicePayload, now: Time, id: Uuid)
    requires Create(p, now, id).Success?
    ensures LedgerInvariant(Create(p, now, id).value, now)
  {
  }

  /** Entries dated now extend a history that is chronological up to an earlier instant. */
  lemma ChronologicalAppend(h: seq<InvoiceHistory>, added: seq<InvoiceHistory>, before: Time, now: Time)
    requires ChronologicalUntil(h, before) && before <= now
    requires forall k :: 0 <= k < |added| ==> added[k].actionDate == now
    ensures ChronologicalUntil(h + added, now)
  {
  }

  /** An accepted payment extends a consistent payment ledger consistently. */
  lemma PaymentLedgerAppend(ph: seq<PaymentHistory>, outstanding: Money, paid: Money, now: Time)
    requires PaymentLedgerConsistent(ph, outstanding)
    requires paid > 0.0
    ensures PaymentLedgerConsistent(ph + [PaymentHistory(paid, outstanding - paid, now)], outstanding - paid)
  {
  }

  /** The field-by-field record of an update with a valid payload keeps the ledger invariants. */
  lemma UpdatedFieldsKeepInvariant(inv: Invoice, p: UpdateInvoicePayload, before: Time, now: Time)
    requires LedgerInvariant(inv, before) && before <= now
    requires ValidUpdatePayload(p)
    ensures LedgerInvariant(UpdatedFields(inv, p, now), now)
  {
    var r := UpdatedFields(inv, p, now);
    var added := DirectStatusEntries(inv, p.status, now)
                 + (if PaymentApplies(inv, p.paidAmount) then [InvoiceHistory(r.status, now)] else []);
    assert r.invoiceHistory == inv.invoiceHistory + added;
    ChronologicalAppend(inv.invoiceHistory, added, before, now);
    if PaymentApplies(inv, p.paidAmount) {
      PaymentLedgerAppend(inv.paymentHistory, inv.outstandingAmount, p.paidAmount.value, now);
    } else {
      assert r.paymentHistory == inv.paymentHistory + [];
    }
  }

  /** An accepted update at a later instant keeps the ledger invariants. */
  lemma UpdatePreservesInvariant(inv: Invoice, p: UpdateInvoicePayload, before: Time, now: Time)
    requires LedgerInvariant(inv, before) && before <= now
    requires Update(Some(inv), p, now).Success?
    ensures LedgerInvariant(Update(Some(inv), p, now).value, now)
  {
    UpdateReference(Some(inv), p, now);
    UpdatedFieldsKeepInvariant(inv, p, before, now);
  }

  // ---------------------------------------------------------------------------
  // Statuses reachable through the handlers, and the dashboard

  /** The statuses an invoice can hold when only these handlers have written it. */
  predicate HandlerStatus(s: Status)
  {
    s == Created || AdmittedStatus(s) || s == PartialPayment || s == FullPayment
  }

  lemma UpdateKeepsHandlerStatus(inv: Invoice, p: UpdateInvoicePayload, now: Time)
    requires HandlerStatus(inv.status)
    requires Update(Some(inv), p, now).Success?
    ensures HandlerStatus(Update(Some(inv), p, now).value.status)
  {
    if PaymentApplies(inv, p.paidAmount) {
      AcceptedPayment(inv, p, now);
    } else {
      DirectStatusChange(inv, p, now);
    }
  }

  /**
   * The validator admits "draft" but never "DRAFT", so no invoice written
   * only by these handlers is ever in the dashboard's draft bucket.
   */
  lemma HandlerInvoicesHaveNoDrafts(invs: seq<Invoice>, now: Time)
    requires forall i :: 0 <= i < |invs| ==> HandlerStatus(invs[i].status)
    ensures GetInvoiceDashboard(invs, now).totalDraftCount == 0
    ensures GetInvoiceDashboard(invs, now).totalDraft == 0.0
  {
    NoDraftsEmptyDraftBucket(invs, now);
  }

  /** An invoice directly marked "paid" stays in the unpaid bucket and out of the paid one. */
  lemma DirectlyMarkedPaidStaysUnpaid(inv: Invoice, now: Time, at: Time)
    ensures var r := Update(Some(inv), NoChanges.(status := Some(LowerPaid)), now);
      && r.Success?
      && r.value.status == LowerPaid
      && InBucket(r.value, UnpaidBucket, at) && !InBucket(r.value, PaidBucket, at)
  {
  }
}
