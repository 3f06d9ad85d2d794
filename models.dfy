/**
 * The record types of the invoice store and the dashboard aggregates
 * (models/models.go). Dates are instants on one integer time line: a due
 * date is the instant its calendar day begins. Money is exact (real).
 */
module Models {

  type Time = int
  type Money = real
  type Uuid = nat

  /**
   * Go's Status is a string type. The first six values are its declared
   * constants; the last four are the lower-case strings that the update
   * payload's validator admits ("paid", "unpaid", "draft", "overdue"),
   * none of which is one of the constants.
   */
  datatype Status =
    | Draft | Created | Sent | PartialPayment | FullPayment | Canceled
    | LowerPaid | LowerUnpaid | LowerDraft | LowerOverdue
  {
    /** The string stored in the status column. */
    function Text(): string
    {
      match this
      case Draft => "DRAFT"
      case Created => "CREATED"
      case Sent => "SENT"
      case PartialPayment => "PARTIAL_PAYMENT"
      case FullPayment => "FULL_PAYMENT"
      case Canceled => "CANCELED"
      case LowerPaid => "paid"
      case LowerUnpaid => "unpaid"
      case LowerDraft => "draft"
      case LowerOverdue => "overdue"
    }

    /** One of the six declared constants. */
    predicate IsConstant()
    {
      this in {Draft, Created, Sent, PartialPayment, FullPayment, Canceled}
    }
  }

  /** Reminder offsets; accepted by the create payload, never stored by it. */
  datatype Reminder = TwoWeeks | AWeek | ThreeDays | ADay | DueDate

  datatype Item = Item(name: string, quantity: int, unitPrice: Money)

  datatype PaymentHistory = PaymentHistory(amountPaid: Money, amountBalance: Money, datePaid: Time)

  datatype InvoiceHistory = InvoiceHistory(action: Status, actionDate: Time)

  datatype CustomerInfo = CustomerInfo(name: string, email: string, phoneNumber: string)

  /** One row of the invoices table; the JSON columns are typed sequences and records. */
  datatype Invoice = Invoice(
    invoiceId: Uuid,
    dueDate: Time,
    description: string,
    amount: Money,
    status: Status,
    outstandingAmount: Money,
    paymentHistory: seq<PaymentHistory>,
    invoiceHistory: seq<InvoiceHistory>,
    createdBy: int,
    items: seq<Item>,
    reminders: seq<Reminder>,
    isDiscount: bool,
    discountPercentage: real,
    note: string,
    isSettled: bool,
    isShared: bool,
    customerInfo: CustomerInfo)

  datatype InvoiceDashboard = InvoiceDashboard(
    totalPaid: Money, totalPaidCount: nat,
    totalOverdue: Money, totalOverdueCount: nat,
    totalDraft: Money, totalDraftCount: nat,
    totalUnpaid: Money, totalUnpaidCount: nat)

  /** The four aggregate queries of the dashboard. */
  datatype Bucket = PaidBucket | OverdueBucket | DraftBucket | UnpaidBucket

  /** The WHERE clause of each dashboard query. */
  predicate InBucket(inv: Invoice, b: Bucket, now: Time)
  {
    match b
    case PaidBucket => inv.status == FullPayment
    case OverdueBucket => inv.dueDate <= now && inv.status != FullPayment
    case DraftBucket => inv.status == Draft
    case UnpaidBucket => inv.status != FullPayment
  }

  /** COUNT(*) of a bucket's query. */
  function BucketCount(invs: seq<Invoice>, b: Bucket, now: Time): (n: nat)
    ensures n <= |invs|
  {
    if invs == [] then 0
    else (if InBucket(invs[0], b, now) then 1 else 0) + BucketCount(invs[1..], b, now)
  }

  /** SUM(amount) of a bucket's query (an empty bucket sums to zero). */
  function BucketSum(invs: seq<Invoice>, b: Bucket, now: Time): Money
  {
    if invs == [] then 0.0
    else (if InBucket(invs[0], b, now) then invs[0].amount else 0.0) + BucketSum(invs[1..], b, now)
  }

  /** The sum of amount over all invoices. */
  function TotalAmount(invs: seq<Invoice>): Money
  {
    if invs == [] then 0.0 else invs[0].amount + TotalAmount(invs[1..])
  }

  /** The four queries of GetInvoiceDashboard, each filling its own pair of fields. */
  function GetInvoiceDashboard(invs: seq<Invoice>, now: Time): InvoiceDashboard
  {
    InvoiceDashboard(
      BucketSum(invs, PaidBucket, now), BucketCount(invs, PaidBucket, now),
      BucketSum(invs, OverdueBucket, now), BucketCount(invs, OverdueBucket, now),
      BucketSum(invs, DraftBucket, now), BucketCount(invs, DraftBucket, now),
      BucketSum(invs, UnpaidBucket, now), BucketCount(invs, UnpaidBucket, now))
  }

  /** The indices of the invoices a bucket's query selects. */
  ghost function Selected(invs: seq<Invoice>, b: Bucket, now: Time): set<nat>
  {
    set i: nat | i < |invs| && InBucket(invs[i], b, now)
  }

  lemma {:induction false} BucketCountAppend(invs: seq<Invoice>, inv: Invoice, b: Bucket, now: Time)
    ensures BucketCount(invs + [inv], b, now)
         == BucketCount(invs, b, now) + (if InBucket(inv, b, now) then 1 else 0)
  {
    if invs == [] {
      assert invs + [inv] == [inv];
    } else {
      assert (invs + [inv])[1..] == invs[1..] + [inv];
      BucketCountAppend(invs[1..], inv, b, now);
    }
  }

  /** Appending an invoice adds its index to the selection exactly when the bucket takes it. */
  lemma SelectedAppend(init: seq<Invoice>, inv: Invoice, b: Bucket, now: Time)
    ensures Selected(init + [inv], b, now)
         == Selected(init, b, now) + (if InBucket(inv, b, now) then {|init|} else {})
  {
    var invs := init + [inv];
    forall i: nat | i < |init|
      ensures invs[i] == init[i]
    {
    }
    assert invs[|init|] == inv;
  }

  /** A bucket counts exactly the invoices its predicate selects. */
  lemma {:induction false} BucketCountIsSelection(invs: seq<Invoice>, b: Bucket, now: Time)
    ensures BucketCount(invs, b, now) == |Selected(invs, b, now)|
    decreases |invs|
  {
    if invs != [] {
      var k := |invs| - 1;
      var init := invs[..k];
      assert invs == init + [invs[k]];
      BucketCountAppend(init, invs[k], b, now);
      BucketCountIsSelection(init, b, now);
      SelectedAppend(init, invs[k], b, now);
      assert k !in Selected(init, b, now);
    }
  }

  /** Every invoice is either paid or unpaid, so the two buckets partition the table. */
  lemma {:induction false} PaidAndUnpaidPartition(invs: seq<Invoice>, now: Time)
    ensures BucketCount(invs, PaidBucket, now) + BucketCount(invs, UnpaidBucket, now) == |invs|
    ensures BucketSum(invs, PaidBucket, now) + BucketSum(invs, UnpaidBucket, now) == TotalAmount(invs)
  {
    if invs != [] {
      PaidAndUnpaidPartition(invs[1..], now);
    }
  }

  /** Overdue and draft invoices are all unpaid. */
  predicate WithinUnpaid(b: Bucket)
  {
    b == OverdueBucket || b == DraftBucket || b == UnpaidBucket
  }

  /**
   * The overdue and draft buckets never exceed the unpaid one in count, nor,
   * when no amount is negative, in sum.
   */
  lemma {:induction false} SubBucketsBoundedByUnpaid(invs: seq<Invoice>, b: Bucket, now: Time)
    requires WithinUnpaid(b)
    ensures BucketCount(invs, b, now) <= BucketCount(invs, UnpaidBucket, now)
    ensures (forall i :: 0 <= i < |invs| ==> invs[i].amount >= 0.0) ==>
              BucketSum(invs, b, now) <= BucketSum(invs, UnpaidBucket, now)
  {
    if invs != [] {
      SubBucketsBoundedByUnpaid(invs[1..], b, now);
      assert forall i :: 0 <= i < |invs[1..]| ==> invs[1..][i] == invs[i + 1];
    }
  }

  /**
   * The buckets read status, due date and amount only: two tables that agree
   * on those columns have the same dashboard, whatever their outstanding
   * amounts or histories.
   */
  lemma {:induction false} DashboardIgnoresOutstanding(invs: seq<Invoice>, others: seq<Invoice>, now: Time)
    requires |invs| == |others|
    requires forall i :: 0 <= i < |invs| ==>
      invs[i].status == others[i].status && invs[i].dueDate == others[i].dueDate
      && invs[i].amount == others[i].amount
    ensures GetInvoiceDashboard(invs, now) == GetInvoiceDashboard(others, now)
  {
    if invs != [] {
      DashboardIgnoresOutstanding(invs[1..], others[1..], now);
    }
  }

  /** A table without a DRAFT invoice has an empty draft bucket. */
  lemma {:induction false} NoDraftsEmptyDraftBucket(invs: seq<Invoice>, now: Time)
    requires forall i :: 0 <= i < |invs| ==> invs[i].status != Draft
    ensures BucketCount(invs, DraftBucket, now) == 0
    ensures BucketSum(invs, DraftBucket, now) == 0.0
  {
    if invs != [] {
      NoDraftsEmptyDraftBucket(invs[1..], now);
    }
  }

  /** The relations between the dashboard's figures. */
  lemma DashboardRelations(invs: seq<Invoice>, now: Time)
    ensures var d := GetInvoiceDashboard(invs, now);
      && d.totalPaidCount + d.totalUnpaidCount == |invs|
      && d.totalPaid + d.totalUnpaid == TotalAmount(invs)
      && d.totalOverdueCount <= d.totalUnpaidCount
      && d.totalDraftCount <= d.totalUnpaidCount
      && ((forall i :: 0 <= i < |invs| ==> invs[i].amount >= 0.0) ==>
            d.totalOverdue <= d.totalUnpaid && d.totalDraft <= d.totalUnpaid)
  {
    PaidAndUnpaidPartition(invs, now);
    SubBucketsBoundedByUnpaid(invs, OverdueBucket, now);
    SubBucketsBoundedByUnpaid(invs, DraftBucket, now);
  }

  /** The buckets are not exclusive: an overdue DRAFT invoice counts as overdue, draft and unpaid at once. */
  lemma BucketsOverlap(inv: Invoice, now: Time)
    requires inv.status == Draft && inv.dueDate <= now
    ensures var d := GetInvoiceDashboard([inv], now);
      && d.totalOverdueCount == 1 && d.totalDraftCount == 1 && d.totalUnpaidCount == 1
      && d.totalPaidCount == 0
  {
  }

  /** Buckets sum the invoiced amount: a partly paid invoice adds its whole amount to the unpaid total. */
  lemma PartlyPaidCountsInFull(inv: Invoice, now: Time)
    requires inv.status == PartialPayment
    ensures GetInvoiceDashboard([inv], now).totalUnpaid == inv.amount
  {
    assert [inv][1..] == [];
    assert BucketSum([inv], UnpaidBucket, now) == inv.amount + BucketSum([], UnpaidBucket, now);
  }
}
