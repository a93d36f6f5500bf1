/**
  Invoice balances: an invoice is stored with its balance worked out, and
  every payment recorded against it raises what has been paid, lowers the
  balance and settles the status.
*/
module Billing {
  import opened Wrappers
  import opened Models
  import opened Lists

  /** The balance is what remains of the total once the paid amount is taken off. */
  predicate Balanced(inv: Invoice) {
    inv.balanceAmount == inv.totalAmount - inv.paidAmount
  }

  /** The invoice as it is stored: its author set and its balance computed; nothing else is touched. */
  function Issue(inv: Invoice, user: string): (r: Invoice)
    ensures Balanced(r)
    ensures r.createdBy == user && r.paidAmount == inv.paidAmount && r.status == inv.status
    ensures r.(balanceAmount := inv.balanceAmount, createdBy := inv.createdBy) == inv
  {
    inv.(createdBy := user, balanceAmount := inv.totalAmount - inv.paidAmount)
  }

  /**
    One payment against an invoice: the paid amount grows by the payment,
    the balance follows, and the invoice is paid exactly when what has been
    paid reaches the total (otherwise partially paid).
  */
  function ApplyPayment(inv: Invoice, amount: int): (r: Invoice)
    ensures r.paidAmount == inv.paidAmount + amount
    ensures Balanced(r)
    ensures r.status == InvPaid <==> r.paidAmount >= inv.totalAmount
    ensures r.status == InvPaid || r.status == InvPartiallyPaid
    ensures r.(paidAmount := inv.paidAmount, balanceAmount := inv.balanceAmount, status := inv.status) == inv
  {
    var paid := inv.paidAmount + amount;
    var balance := inv.totalAmount - paid;
    inv.(paidAmount := paid, balanceAmount := balance, status := if balance <= 0 then InvPaid else InvPartiallyPaid)
  }

  /** Two payments leave an invoice exactly as one payment of their sum would. */
  lemma PaymentsAccumulate(inv: Invoice, a: int, b: int)
    ensures ApplyPayment(ApplyPayment(inv, a), b) == ApplyPayment(inv, a + b)
  {
  }

  /** `db.invoices.find_one({"invoice_id": ...})`. */
  function FindInvoice(invoices: seq<Invoice>, invoiceId: string): (r: Option<nat>)
    ensures r.Some? ==> r.value < |invoices| && invoices[r.value].invoiceId == invoiceId
    ensures r.Some? ==> forall j :: 0 <= j < r.value ==> invoices[j].invoiceId != invoiceId
    ensures r.None? ==> forall j :: 0 <= j < |invoices| ==> invoices[j].invoiceId != invoiceId
  {
    FirstIndex(invoices, (inv: Invoice) => inv.invoiceId == invoiceId)
  }

  /**
    Recording a payment: the first invoice with the payment's invoice id
    takes the payment; every other invoice is left as it was, and a payment
    naming no stored invoice changes none.
  */
  function RecordPayment(invoices: seq<Invoice>, p: Payment): (r: seq<Invoice>)
    ensures |r| == |invoices|
    ensures forall j :: 0 <= j < |invoices| && r[j] != invoices[j] ==>
              FindInvoice(invoices, p.invoiceId) == Some(j) && r[j] == ApplyPayment(invoices[j], p.amount)
    ensures (forall j :: 0 <= j < |invoices| ==> invoices[j].invoiceId != p.invoiceId) ==> r == invoices
    ensures forall j :: 0 <= j < |invoices| && invoices[j].invoiceId == p.invoiceId
                        && (forall k :: 0 <= k < j ==> invoices[k].invoiceId != p.invoiceId) ==>
              r[j] == ApplyPayment(invoices[j], p.amount)
  {
    match FindInvoice(invoices, p.invoiceId)
    case Some(i) => invoices[i := ApplyPayment(invoices[i], p.amount)]
    case None => invoices
  }

  /**
    The stored invoice a payment names is the one that gets paid: its paid
    amount grows by the payment, its balance follows, and it is settled
    exactly when the paid amount reaches its total.
  */
  lemma PaymentReachesInvoice(invoices: seq<Invoice>, p: Payment, i: nat)
    requires i < |invoices| && invoices[i].invoiceId == p.invoiceId
    requires forall k :: 0 <= k < i ==> invoices[k].invoiceId != p.invoiceId
    ensures
      var stored := RecordPayment(invoices, p)[i];
      && stored.paidAmount == invoices[i].paidAmount + p.amount
      && stored.balanceAmount == invoices[i].totalAmount - stored.paidAmount
      && (stored.status == InvPaid <==> stored.paidAmount >= invoices[i].totalAmount)
      && (stored.status == InvPaid || stored.status == InvPartiallyPaid)
  {
  }

  /** Recording payments keeps every stored balance equal to total minus paid. */
  lemma RecordPaymentKeepsBalances(invoices: seq<Invoice>, p: Payment)
    requires forall inv :: inv in invoices ==> Balanced(inv)
    ensures forall inv :: inv in RecordPayment(invoices, p) ==> Balanced(inv)
  {
    var r := RecordPayment(invoices, p);
    forall inv | inv in r ensures Balanced(inv) {
      var j :| 0 <= j < |r| && r[j] == inv;
      assert invoices[j] in invoices;
    }
  }

  /** The dashboard's overdue filter: due before now and still pending or partially paid. */
  predicate IsOverdue(inv: Invoice, companyId: string, now: int) {
    && inv.companyId == companyId
    && inv.dueDate.Some? && inv.dueDate.value < now
    && (inv.status == InvPending || inv.status == InvPartiallyPaid)
  }

  /** An invoice whose payments reach its total is never counted as overdue. */
  lemma PaidInFullNotOverdue(inv: Invoice, amount: int, companyId: string, now: int)
    requires inv.paidAmount + amount >= inv.totalAmount
    ensures !IsOverdue(ApplyPayment(inv, amount), companyId, now)
  {
  }

  /**
    A payment that falls short of the total leaves an invoice counted as
    overdue once its due date has passed, whatever status it had before.
  */
  lemma ShortPaymentOverdue(inv: Invoice, amount: int, now: int)
    requires inv.paidAmount + amount < inv.totalAmount
    requires inv.dueDate.Some? && inv.dueDate.value < now
    ensures IsOverdue(ApplyPayment(inv, amount), inv.companyId, now)
  {
  }
}
