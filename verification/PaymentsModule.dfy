/** The payments service. */
module PaymentsModule {
  import opened Wrappers
  import opened Sums
  import opened Ledger
  import opened Keys
  import opened Schema
  import opened PrismaModule
  import Invoices
  import LedgerModule
  import Settlement

  class PaymentsService {
    const prisma: Prisma
    const ledger: LedgerModule.LedgerService

    ghost predicate Valid() {
      ledger.prisma == prisma
    }

    constructor (prisma: Prisma, ledger: LedgerModule.LedgerService)
      requires ledger.prisma == prisma
      ensures Valid() && this.prisma == prisma
    {
      this.prisma := prisma;
      this.ledger := ledger;
    }

    /** known: the Machinery Company exists. */
    method Record(mcId: nat, amount: nat, known: bool) returns (r: Result<nat>)
      requires Valid()
      modifies prisma
      ensures var before := old(prisma.Snapshot());
              EndsAs(Invoices.RecordPayment(before, mcId, amount, known, DefaultKey(prisma.uuid, ReceiptKey(|before.payments|))),
                     before, prisma.Snapshot(), r)
      ensures r.Ok? ==> r.value == old(|prisma.payments|)
    {
      if !known {
        return Err(CompanyNotFound);
      }
      var id := |prisma.payments|;
      prisma.payments := prisma.payments + [Payment(id, mcId, amount, Unmatched)];
      var _ := ledger.Record(LedgerEntry(PaymentReceipt, amount, None, None, Some(mcId), "payment-receipt:" + prisma.uuid(id)));
      assert DefaultKey(prisma.uuid, ReceiptKey(id)) == "payment-receipt:" + prisma.uuid(id);
      return Ok(id);
    }

    /** All of a payment's matches, added up. */
    method TotalMatched(paymentId: nat) returns (total: int)
      ensures total == Sum(prisma.matches, MatchedToPayment(paymentId))
    {
      total := 0;
      for i := 0 to |prisma.matches|
        invariant total == Sum(prisma.matches[..i], MatchedToPayment(paymentId))
      {
        assert prisma.matches[..i + 1] == prisma.matches[..i] + [prisma.matches[i]];
        SumAppend(prisma.matches[..i], prisma.matches[i], MatchedToPayment(paymentId));
        if prisma.matches[i].paymentId == paymentId {
          total := total + prisma.matches[i].amount;
        }
      }
      assert prisma.matches[..|prisma.matches|] == prisma.matches;
    }

    method Match(paymentId: nat, invoiceId: nat, amount: nat) returns (r: Result<Payment>)
      modifies prisma
      ensures EndsAs(Invoices.MatchPayment(old(prisma.Snapshot()), paymentId, invoiceId, amount),
                     old(prisma.Snapshot()), prisma.Snapshot(), r)
      ensures r.Ok? ==> paymentId < |prisma.payments| && r.value == prisma.payments[paymentId]
      ensures r.Ok? ==> Settlement.StatusFits(r.value.status, true, Sum(prisma.matches, MatchedToPayment(paymentId)), r.value.amount)
    {
      if paymentId >= |prisma.payments| {
        return Err(PaymentNotFound);
      }
      if invoiceId >= |prisma.invoices| {
        return Err(InvoiceNotFound);
      }
      var payment := prisma.payments[paymentId];
      if prisma.invoices[invoiceId].mcId != payment.mcId {
        return Err(DifferentCompanies);
      }
      prisma.matches := prisma.matches + [Schema.Match(paymentId, invoiceId, amount)];
      var totalMatched := TotalMatched(paymentId);
      var status := if totalMatched == payment.amount then FullyMatched
                    else if totalMatched > payment.amount then Overpaid
                    else PartiallyMatched;
      prisma.payments := prisma.payments[paymentId := payment.(status := status)];
      return Ok(prisma.payments[paymentId]);
    }
  }
}
