/** The invoice service. Each operation checks, then changes the tables step by step inside a transaction; its contract
    is the operation on table values that module Invoices defines. */
module InvoicesModule {
  import opened Wrappers
  import opened Sums
  import opened StateMachine
  import opened Credit
  import opened Ledger
  import opened FeeCalculator
  import opened Keys
  import opened Schema
  import opened PrismaModule
  import Invoices
  import Engine
  import LedgerModule
  import CreditLimitsModule
  import Outcomes
  import Payouts

  /** Columns a status change may set besides the status. */
  datatype ExtraData = Nothing | FundingAmounts(advanceAmount: int, reserveAmount: int)

  datatype Decision = Approve | Reject | RequestInfo

  function WithExtra(inv: Invoice, extra: ExtraData): Invoice {
    match extra
    case Nothing => inv
    case FundingAmounts(advance, reserve) => inv.(advanceAmount := Some(advance), reserveAmount := Some(reserve))
  }

  function HandlerOf(decision: Decision): Invoices.Handler {
    match decision
    case Approve => Invoices.UnderwriteApprove
    case Reject => Invoices.UnderwriteReject
    case RequestInfo => Invoices.UnderwriteRequestInfo
  }

  /** How an extraction with a document ends: its first transaction, then its second if the foreign call succeeds. */
  ghost predicate ExtractionEndsAs(before: Db, after: Db, id: nat, extracted: bool, now: int, later: int, r: Result<Invoice>) {
    match Invoices.RunHandler(before, id, Invoices.StartExtraction, true, now)
    case Err(e) => r == Err(e) && after == before
    case Ok(started) =>
      if extracted then EndsAs(Invoices.RunHandler(started, id, Invoices.FinishExtraction, true, later), started, after, r)
      else r == Err(ExtractionFailed) && after == started
  }

  /** A call that goes through answers with the invoice as it is then, in the given status. */
  ghost predicate Answers(invoices: seq<Invoice>, id: nat, status: Status, r: Result<Invoice>) {
    r.Ok? ==> id < |invoices| && r.value == invoices[id] && r.value.status == status
  }

  class InvoicesService {
    const prisma: Prisma
    const ledger: LedgerModule.LedgerService
    const creditLimits: CreditLimitsModule.CreditLimitsService

    /** DEFAULT_ADVANCE_PCT. */
    const advancePct: int

    ghost predicate Valid() {
      ledger.prisma == prisma && creditLimits.prisma == prisma
    }

    constructor (prisma: Prisma, ledger: LedgerModule.LedgerService, creditLimits: CreditLimitsModule.CreditLimitsService,
                 advancePct: int)
      requires ledger.prisma == prisma && creditLimits.prisma == prisma
      ensures Valid() && this.prisma == prisma && this.advancePct == advancePct
    {
      this.prisma := prisma;
      this.ledger := ledger;
      this.creditLimits := creditLimits;
      this.advancePct := advancePct;
    }

    method AssertWithinCreditLimit(mcId: nat, amount: int) returns (r: Result<()>)
      requires Valid()
      ensures match LimitCheck(prisma.Snapshot().credit, mcId, amount)
              case None => r.Ok?
              case Some(e) => r == Err(e)
      ensures r.Ok? <==> Outcomes.HasRoom(prisma.Snapshot().credit, mcId, amount)
      ensures r.Err? ==> Outcomes.RefusedForRoom(prisma.Snapshot().credit, mcId, amount, r.error)
    {
      var check :- creditLimits.WouldExceed(mcId, amount);
      return if check.exceeds then Err(LimitExceeded(check.overBy)) else Ok(());
    }

    method WriteStatusChange(id: nat, from: Status, to: Status, extra: ExtraData, now: int) returns (r: Result<Invoice>)
      requires id < |prisma.invoices|
      modifies prisma`invoices, prisma`history
      ensures match Invoices.ChangeStatus(old(prisma.Snapshot()), id, from, to, now)
              case Ok(db) => id < |db.invoices| && r == Ok(WithExtra(db.invoices[id], extra))
                             && prisma.Snapshot() == db.(invoices := db.invoices[id := r.value])
              case Err(e) => r == Err(e) && prisma.Snapshot() == old(prisma.Snapshot())
    {
      if !IsLegal(from, to) {
        return Err(IllegalTransition);
      }
      var updated := WithExtra(prisma.invoices[id].(status := to), extra);
      prisma.invoices := prisma.invoices[id := updated];
      prisma.history := prisma.history + [StatusRow(id, from, to, now)];
      return Ok(updated);
    }

    // ---- From upload to approval

    method Create(brokerId: nat, mcId: nat, invoiceNumber: string, totalAmount: nat, gallons: nat, transactable: bool,
                  now: int) returns (r: Result<Invoice>)
      requires Valid()
      modifies prisma
      ensures EndsAs(Invoices.Create(old(prisma.Snapshot()), brokerId, mcId, invoiceNumber, totalAmount, gallons, transactable, now),
                     old(prisma.Snapshot()), prisma.Snapshot(), r)
      ensures r.Ok? ==> prisma.invoices == old(prisma.invoices) + [r.value]
                        && r.value == Invoice(old(|prisma.invoices|), invoiceNumber, brokerId, mcId, totalAmount, gallons, Uploaded,
                                              false, None, None)
    {
      if !transactable {
        return Err(NotTransactable);
      }
      if FindFirst(prisma.invoices, Invoices.HasNumber(brokerId, invoiceNumber)).Some? {
        return Err(DuplicateInvoiceNumber);
      }
      var id := |prisma.invoices|;
      prisma.invoices := prisma.invoices
        + [Invoice(id, invoiceNumber, brokerId, mcId, totalAmount, gallons, Draft, false, None, None)];
      r := WriteStatusChange(id, Draft, Uploaded, Nothing, now);
    }

    /** Two transactions around the foreign call, so a failing one leaves the invoice in EXTRACTING. A document belongs
        to an invoice, so an unknown invoice has none. */
    method RunExtractionCore(id: nat, hasDocument: bool, extracted: bool, now: int, later: int) returns (r: Result<Invoice>)
      requires Valid() && (hasDocument ==> id < |prisma.invoices|)
      modifies prisma
      ensures !hasDocument ==> r == Err(NoDocument) && prisma.Snapshot() == old(prisma.Snapshot())
      ensures hasDocument ==> ExtractionEndsAs(old(prisma.Snapshot()), prisma.Snapshot(), id, extracted, now, later, r)
      ensures Answers(prisma.invoices, id, PendingBrokerReview, r)
      ensures hasDocument && !extracted ==>
                r == Err(ExtractionFailed) && id < |prisma.invoices| && prisma.invoices[id].status == Extracting
    {
      if !hasDocument {
        return Err(NoDocument);
      }
      r := WriteStatusChange(id, Uploaded, Extracting, Nothing, now);
      if r.Err? {
        return;
      }
      if !extracted {
        return Err(ExtractionFailed);
      }
      r := WriteStatusChange(id, Extracting, PendingBrokerReview, Nothing, later);
    }

    /** The broker's call, which looks the invoice up first. */
    method RunExtraction(id: nat, hasDocument: bool, extracted: bool, now: int, later: int) returns (r: Result<Invoice>)
      requires Valid() && (hasDocument ==> id < |prisma.invoices|)
      modifies prisma
      ensures match Invoices.RunHandler(old(prisma.Snapshot()), id, Invoices.StartExtraction, hasDocument, now)
              case Err(e) => r == Err(e) && prisma.Snapshot() == old(prisma.Snapshot())
              case Ok(_) => ExtractionEndsAs(old(prisma.Snapshot()), prisma.Snapshot(), id, extracted, now, later, r)
      ensures Answers(prisma.invoices, id, PendingBrokerReview, r)
      ensures hasDocument && !extracted ==>
                r == Err(ExtractionFailed) && id < |prisma.invoices| && prisma.invoices[id].status == Extracting
    {
      if id >= |prisma.invoices| {
        return Err(InvoiceNotFound);
      }
      r := RunExtractionCore(id, hasDocument, extracted, now, later);
    }

    /** The system's call, which does not: an unknown invoice is reported as one without documents. */
    method RunExtractionAsSystem(id: nat, hasDocument: bool, extracted: bool, now: int, later: int) returns (r: Result<Invoice>)
      requires Valid() && (hasDocument ==> id < |prisma.invoices|)
      modifies prisma
      ensures !hasDocument ==> r == Err(NoDocument) && prisma.Snapshot() == old(prisma.Snapshot())
      ensures hasDocument ==> ExtractionEndsAs(old(prisma.Snapshot()), prisma.Snapshot(), id, extracted, now, later, r)
      ensures Answers(prisma.invoices, id, PendingBrokerReview, r)
      ensures hasDocument && !extracted ==>
                r == Err(ExtractionFailed) && id < |prisma.invoices| && prisma.invoices[id].status == Extracting
    {
      r := RunExtractionCore(id, hasDocument, extracted, now, later);
    }

    method SubmitForApproval(id: nat, now: int) returns (r: Result<Invoice>)
      requires Valid()
      modifies prisma
      ensures EndsAs(Invoices.RunHandler(old(prisma.Snapshot()), id, Invoices.SubmitForApproval, true, now),
                     old(prisma.Snapshot()), prisma.Snapshot(), r)
      ensures Answers(prisma.invoices, id, PendingMcApproval, r)
    {
      if id >= |prisma.invoices| {
        return Err(InvoiceNotFound);
      }
      r := WriteStatusChange(id, PendingBrokerReview, PendingMcApproval, Nothing, now);
    }

    method McApprove(id: nat, transactable: bool, now: int) returns (r: Result<Invoice>)
      requires Valid()
      modifies prisma
      ensures EndsAs(Invoices.RunHandler(old(prisma.Snapshot()), id, Invoices.McApprove, transactable, now),
                     old(prisma.Snapshot()), prisma.Snapshot(), r)
      ensures Answers(prisma.invoices, id, PendingUnderwriting, r)
    {
      if id >= |prisma.invoices| {
        return Err(InvoiceNotFound);
      }
      if !transactable {
        return Err(NotTransactable);
      }
      r := WriteStatusChange(id, PendingMcApproval, PendingUnderwriting, Nothing, now);
    }

    method McDispute(id: nat, now: int) returns (r: Result<Invoice>)
      requires Valid()
      modifies prisma
      ensures EndsAs(Invoices.RaiseDispute(old(prisma.Snapshot()), id, now), old(prisma.Snapshot()), prisma.Snapshot(), r)
      ensures Answers(prisma.invoices, id, McDisputed, r)
    {
      if id >= |prisma.invoices| {
        return Err(InvoiceNotFound);
      }
      prisma.disputes := prisma.disputes + [Dispute(id, Open)];
      r := WriteStatusChange(id, PendingMcApproval, McDisputed, Nothing, now);
    }

    method ResolveDispute(id: nat, reinstate: bool, now: int) returns (r: Result<Invoice>)
      requires Valid()
      modifies prisma
      ensures EndsAs(Invoices.ResolveDispute(old(prisma.Snapshot()), id, reinstate, now),
                     old(prisma.Snapshot()), prisma.Snapshot(), r)
      ensures Answers(prisma.invoices, id, if reinstate then PendingMcApproval else Cancelled, r)
    {
      if id >= |prisma.invoices| {
        return Err(InvoiceNotFound);
      }
      var toStatus := if reinstate then PendingMcApproval else Cancelled;
      var openDispute := FindFirst(prisma.disputes, OpenDisputeOf(id));
      if openDispute.Some? {
        var d := openDispute.value;
        prisma.disputes := prisma.disputes[d := prisma.disputes[d].(status := Resolved)];
      }
      r := WriteStatusChange(id, McDisputed, toStatus, Nothing, now);
    }

    method Underwrite(id: nat, decision: Decision, now: int) returns (r: Result<Invoice>)
      requires Valid()
      modifies prisma
      ensures EndsAs(Invoices.RunHandler(old(prisma.Snapshot()), id, HandlerOf(decision), true, now),
                     old(prisma.Snapshot()), prisma.Snapshot(), r)
      ensures decision == Approve ==> Answers(prisma.invoices, id, ApprovedForFunding, r)
      ensures decision == Reject ==> Answers(prisma.invoices, id, Rejected, r)
      ensures decision == RequestInfo ==> Answers(prisma.invoices, id, InfoRequested, r)
      ensures id < old(|prisma.invoices|) && decision == Approve ==>
                var before := old(prisma.Snapshot());
                (r.Ok? <==> Outcomes.HasRoom(before.credit, before.invoices[id].mcId, before.invoices[id].totalAmount))
    {
      if id >= |prisma.invoices| {
        return Err(InvoiceNotFound);
      }
      var invoice := prisma.invoices[id];
      var toStatus := match decision
        case Approve => ApprovedForFunding
        case Reject => Rejected
        case RequestInfo => InfoRequested;
      if decision == Approve {
        var _ :- AssertWithinCreditLimit(invoice.mcId, invoice.totalAmount);
      }
      r := WriteStatusChange(id, PendingUnderwriting, toStatus, Nothing, now);
    }

    method RespondToInfoRequest(id: nat, now: int) returns (r: Result<Invoice>)
      requires Valid()
      modifies prisma
      ensures EndsAs(Invoices.RunHandler(old(prisma.Snapshot()), id, Invoices.RespondToInfoRequest, true, now),
                     old(prisma.Snapshot()), prisma.Snapshot(), r)
      ensures Answers(prisma.invoices, id, PendingUnderwriting, r)
    {
      if id >= |prisma.invoices| {
        return Err(InvoiceNotFound);
      }
      r := WriteStatusChange(id, InfoRequested, PendingUnderwriting, Nothing, now);
    }

    // ---- Funding

    /** The reads, checks and amounts fund starts with. */
    method FundChecks(id: nat) returns (r: Result<Invoices.FundCall>)
      requires Valid()
      ensures r == Invoices.FundGuard(prisma.Snapshot(), id, advancePct)
      ensures r.Ok? && 0 <= advancePct <= 100_00 ==>
                && id < |prisma.invoices| && r.value.id == id && r.value.totalAmount == prisma.invoices[id].totalAmount
                && r.value.mcId == prisma.invoices[id].mcId && r.value.brokerId == prisma.invoices[id].brokerId
                && Payouts.SharesTotal(r.value.advance, r.value.reserve, r.value.totalAmount, advancePct)
    {
      if id >= |prisma.invoices| {
        return Err(InvoiceNotFound);
      }
      var invoice := prisma.invoices[id];
      if invoice.status != ApprovedForFunding {
        return Err(NotApprovedForFunding);
      }
      var _ :- AssertWithinCreditLimit(invoice.mcId, invoice.totalAmount);
      var advance := invoice.totalAmount * advancePct;
      var reserve := invoice.totalAmount * ADVANCE_SCALE - advance;
      if 0 <= advancePct <= 100_00 {
        Payouts.TermsShareTotal(invoice, id, advancePct);
      }
      return Ok(Invoices.FundCall(id, invoice.brokerId, invoice.mcId, invoice.totalAmount,
                                  RoundHalfAway(advance, ADVANCE_SCALE), RoundHalfAway(reserve, ADVANCE_SCALE)));
    }

    method FundTransaction(c: Invoices.FundCall, idempotencyKey: string, now: int) returns (r: Result<Invoice>)
      requires Valid() && c.id < |prisma.invoices|
      modifies prisma
      ensures BodyEndsAs(Invoices.FundCommit(old(prisma.Snapshot()), c, FundKeysOf(idempotencyKey), now), prisma.Snapshot(), r)
      ensures Answers(prisma.invoices, c.id, Funded, r)
    {
      r := WriteStatusChange(c.id, ApprovedForFunding, Funded, FundingAmounts(c.advance, c.reserve), now);
      if r.Err? {
        return;
      }
      var _ := ledger.Record(LedgerEntry(FundingDisbursement, c.advance, Some(c.id), Some(c.brokerId), Some(c.mcId),
                                         idempotencyKey + ":disbursement"));
      var _ := ledger.Record(LedgerEntry(ReserveHold, c.reserve, Some(c.id), Some(c.brokerId), Some(c.mcId),
                                         idempotencyKey + ":reserve-hold"));
      var _ :- creditLimits.ApplyDelta(DeltaRequest(c.mcId, c.totalAmount, InvoiceFunded, Some(c.id),
                                                    idempotencyKey + ":credit-limit"));
    }

    method Fund(id: nat, idempotencyKey: string, now: int) returns (r: Result<Invoice>)
      requires Valid()
      modifies prisma
      ensures EndsAs(Invoices.Fund(old(prisma.Snapshot()), id, advancePct, FundKeysOf(idempotencyKey), now),
                     old(prisma.Snapshot()), prisma.Snapshot(), r)
      ensures Answers(prisma.invoices, id, Funded, r)
    {
      var c :- FundChecks(id);
      var before := prisma.Snapshot();
      r := FundTransaction(c, idempotencyKey, now);
      if r.Err? {
        prisma.Rollback(before);
      }
    }

    // ---- Settlement

    /** What payments matched to the invoice add up to. */
    method MatchedTotal(id: nat) returns (total: int)
      ensures total == Invoices.MatchedTotal(prisma.Snapshot(), id)
    {
      total := 0;
      for i := 0 to |prisma.matches|
        invariant total == Sum(prisma.matches[..i], MatchedToInvoice(id))
      {
        assert prisma.matches[..i + 1] == prisma.matches[..i] + [prisma.matches[i]];
        SumAppend(prisma.matches[..i], prisma.matches[i], MatchedToInvoice(id));
        if prisma.matches[i].invoiceId == id {
          total := total + prisma.matches[i].amount;
        }
      }
      assert prisma.matches[..|prisma.matches|] == prisma.matches;
    }

    method SettleTransaction(id: nat, invoice: Invoice, idempotencyKey: string, now: int) returns (r: Result<Invoice>)
      requires Valid() && id < |prisma.invoices|
      modifies prisma
      ensures BodyEndsAs(Invoices.SettleCommit(old(prisma.Snapshot()), id, invoice, SettleKeysOf(idempotencyKey), now),
                         prisma.Snapshot(), r)
      ensures Answers(prisma.invoices, id, Settled, r)
    {
      r := WriteStatusChange(id, Funded, Settled, Nothing, now);
      if r.Err? {
        return;
      }
      var released := if invoice.reserveAmount.Some? then invoice.reserveAmount.value else 0;
      var _ := ledger.Record(LedgerEntry(ReserveRelease, released, Some(id), Some(invoice.brokerId), Some(invoice.mcId),
                                         idempotencyKey + ":reserve-release"));
      var _ :- creditLimits.ApplyDelta(DeltaRequest(invoice.mcId, 0 - invoice.totalAmount, InvoiceSettled, Some(id),
                                                    idempotencyKey + ":credit-limit-restore"));
    }

    method Settle(id: nat, idempotencyKey: string, now: int) returns (r: Result<Invoice>)
      requires Valid()
      modifies prisma
      ensures EndsAs(Invoices.Settle(old(prisma.Snapshot()), id, SettleKeysOf(idempotencyKey), now),
                     old(prisma.Snapshot()), prisma.Snapshot(), r)
      ensures Answers(prisma.invoices, id, Settled, r)
    {
      if id >= |prisma.invoices| {
        return Err(InvoiceNotFound);
      }
      var invoice := prisma.invoices[id];
      if invoice.status != Funded {
        return Err(NotFunded);
      }
      if invoice.reserveHold {
        return Err(HoldActive);
      }
      var matchedTotal := MatchedTotal(id);
      if matchedTotal < invoice.totalAmount {
        return Err(ReconciliationIncomplete);
      }
      var before := prisma.Snapshot();
      r := SettleTransaction(id, invoice, idempotencyKey, now);
      if r.Err? {
        prisma.Rollback(before);
      }
    }

    method Cancel(id: nat, now: int) returns (r: Result<Invoice>)
      requires Valid()
      modifies prisma
      ensures EndsAs(Invoices.Cancel(old(prisma.Snapshot()), id, now), old(prisma.Snapshot()), prisma.Snapshot(), r)
      ensures Answers(prisma.invoices, id, Cancelled, r)
      ensures r.Ok? <==>
              id < old(|prisma.invoices|)
              && old(prisma.invoices)[id].status in {Draft, Uploaded, PendingBrokerReview, PendingMcApproval, McDisputed}
    {
      if id >= |prisma.invoices| {
        return Err(InvoiceNotFound);
      }
      r := WriteStatusChange(id, prisma.invoices[id].status, Cancelled, Nothing, now);
    }

    // ---- Reserve holds

    method PlaceReserveHold(id: nat) returns (r: Result<Invoice>)
      modifies prisma
      ensures EndsAs(Invoices.PlaceReserveHold(old(prisma.Snapshot()), id), old(prisma.Snapshot()), prisma.Snapshot(), r)
      ensures Answers(prisma.invoices, id, Funded, r)
    {
      if id >= |prisma.invoices| {
        return Err(InvoiceNotFound);
      }
      var invoice := prisma.invoices[id];
      if invoice.status != Funded {
        return Err(NotFunded);
      }
      if invoice.reserveHold {
        return Err(HoldActive);
      }
      prisma.holds := prisma.holds + [HoldEvent(id, true)];
      prisma.invoices := prisma.invoices[id := invoice.(reserveHold := true)];
      return Ok(prisma.invoices[id]);
    }

    method ReleaseReserveHold(id: nat) returns (r: Result<Invoice>)
      modifies prisma
      ensures EndsAs(Invoices.ReleaseReserveHold(old(prisma.Snapshot()), id), old(prisma.Snapshot()), prisma.Snapshot(), r)
      ensures r.Ok? ==> id < |prisma.invoices| && r.value == prisma.invoices[id] && !r.value.reserveHold
    {
      if id >= |prisma.invoices| {
        return Err(InvoiceNotFound);
      }
      var invoice := prisma.invoices[id];
      if !invoice.reserveHold {
        return Err(NoActiveHold);
      }
      var activeHold := FindFirst(prisma.holds, ActiveHoldOf(id));
      if activeHold.Some? {
        var h := activeHold.value;
        prisma.holds := prisma.holds[h := prisma.holds[h].(active := false)];
      }
      prisma.invoices := prisma.invoices[id := invoice.(reserveHold := false)];
      return Ok(prisma.invoices[id]);
    }

    // ---- Recourse to the broker

    method ChargebackTransaction(id: nat, invoice: Invoice, amount: nat, idempotencyKey: string, now: int)
      returns (r: Result<Invoice>)
      requires Valid() && id < |prisma.invoices|
      modifies prisma
      ensures BodyEndsAs(Invoices.ChargeBackCommit(old(prisma.Snapshot()), id, invoice, amount, ChargebackKeysOf(idempotencyKey), now),
                         prisma.Snapshot(), r)
      ensures Answers(prisma.invoices, id, ChargedBack, r)
    {
      var record := |prisma.chargebacks|;
      prisma.chargebacks := prisma.chargebacks + [Chargeback(id, amount, Completed, None)];
      r := WriteStatusChange(id, Funded, ChargedBack, Nothing, now);
      if r.Err? {
        return;
      }
      var entry := ledger.Record(LedgerEntry(ChargebackEntry, amount, Some(id), Some(invoice.brokerId), Some(invoice.mcId),
                                             idempotencyKey + ":chargeback"));
      prisma.chargebacks := prisma.chargebacks[record := prisma.chargebacks[record].(ledgerEntryId := Some(entry))];
      var _ :- creditLimits.ApplyDelta(DeltaRequest(invoice.mcId, 0 - invoice.totalAmount, ChargedBackInvoice, Some(id),
                                                    idempotencyKey + ":credit-limit-restore"));
    }

    method ChargeBack(id: nat, amount: nat, idempotencyKey: string, now: int) returns (r: Result<Invoice>)
      requires Valid()
      modifies prisma
      ensures EndsAs(Invoices.ChargeBack(old(prisma.Snapshot()), id, amount, ChargebackKeysOf(idempotencyKey), now),
                     old(prisma.Snapshot()), prisma.Snapshot(), r)
      ensures Answers(prisma.invoices, id, ChargedBack, r)
    {
      if id >= |prisma.invoices| {
        return Err(InvoiceNotFound);
      }
      var invoice := prisma.invoices[id];
      if invoice.status != Funded {
        return Err(NotFunded);
      }
      var before := prisma.Snapshot();
      r := ChargebackTransaction(id, invoice, amount, idempotencyKey, now);
      if r.Err? {
        prisma.Rollback(before);
      }
    }

    method WriteOff(id: nat, idempotencyKey: string, now: int) returns (r: Result<Invoice>)
      requires Valid()
      modifies prisma
      ensures EndsAs(Invoices.WriteOff(old(prisma.Snapshot()), id, WriteOffKeyOf(idempotencyKey), now),
                     old(prisma.Snapshot()), prisma.Snapshot(), r)
      ensures Answers(prisma.invoices, id, WrittenOff, r)
    {
      if id >= |prisma.invoices| {
        return Err(InvoiceNotFound);
      }
      var invoice := prisma.invoices[id];
      if invoice.status != ChargedBack {
        return Err(NotChargedBack);
      }
      var record := FindFirst(prisma.chargebacks, ChargebackOf(id));
      var amount := if record.Some? then prisma.chargebacks[record.value].amount else invoice.totalAmount;
      r := WriteStatusChange(id, ChargedBack, WrittenOff, Nothing, now);
      if r.Err? {
        return;
      }
      if record.Some? {
        var c := record.value;
        prisma.chargebacks := prisma.chargebacks[c := prisma.chargebacks[c].(status := ChargebackWrittenOff)];
      }
      var _ := ledger.Record(LedgerEntry(WriteOffEntry, amount, Some(id), Some(invoice.brokerId), Some(invoice.mcId),
                                         idempotencyKey + ":write-off"));
    }
  }

  /** The idempotency key of a route: the header's, or a default made from the invoice's id. */
  function KeyOr(header: Option<string>, default: string): string {
    if header.Some? then header.value else default
  }

  /** The routes that move money. */
  class InvoicesController {
    const invoices: InvoicesService

    constructor (invoices: InvoicesService)
      ensures this.invoices == invoices
    {
      this.invoices := invoices;
    }

    method Fund(id: nat, header: Option<string>, now: int) returns (r: Result<Invoice>)
      requires invoices.Valid()
      modifies invoices.prisma
      ensures var key := match header case Some(sent) => sent case None => "fund:" + invoices.prisma.uuid(id);
              EndsAs(Invoices.Fund(old(invoices.prisma.Snapshot()), id, invoices.advancePct, FundKeysOf(key), now),
                     old(invoices.prisma.Snapshot()), invoices.prisma.Snapshot(), r)
    {
      r := invoices.Fund(id, KeyOr(header, "fund:" + invoices.prisma.uuid(id)), now);
    }

    method Settle(id: nat, header: Option<string>, now: int) returns (r: Result<Invoice>)
      requires invoices.Valid()
      modifies invoices.prisma
      ensures var key := match header case Some(sent) => sent case None => "settle:" + invoices.prisma.uuid(id);
              EndsAs(Invoices.Settle(old(invoices.prisma.Snapshot()), id, SettleKeysOf(key), now),
                     old(invoices.prisma.Snapshot()), invoices.prisma.Snapshot(), r)
    {
      r := invoices.Settle(id, KeyOr(header, "settle:" + invoices.prisma.uuid(id)), now);
    }

    method ChargeBack(id: nat, amount: nat, header: Option<string>, now: int) returns (r: Result<Invoice>)
      requires invoices.Valid()
      modifies invoices.prisma
      ensures var key := match header case Some(sent) => sent case None => "chargeback:" + invoices.prisma.uuid(id);
              EndsAs(Invoices.ChargeBack(old(invoices.prisma.Snapshot()), id, amount, ChargebackKeysOf(key), now),
                     old(invoices.prisma.Snapshot()), invoices.prisma.Snapshot(), r)
    {
      r := invoices.ChargeBack(id, amount, KeyOr(header, "chargeback:" + invoices.prisma.uuid(id)), now);
    }

    method WriteOff(id: nat, header: Option<string>, now: int) returns (r: Result<Invoice>)
      requires invoices.Valid()
      modifies invoices.prisma
      ensures var key := match header case Some(sent) => sent case None => "write-off:" + invoices.prisma.uuid(id);
              EndsAs(Invoices.WriteOff(old(invoices.prisma.Snapshot()), id, WriteOffKeyOf(key), now),
                     old(invoices.prisma.Snapshot()), invoices.prisma.Snapshot(), r)
    {
      r := invoices.WriteOff(id, KeyOr(header, "write-off:" + invoices.prisma.uuid(id)), now);
    }
  }

  // ---- Without a header each route is a step of the machine under the default keys

  lemma KeysOfRoutes(uuid: nat -> string, id: nat)
    ensures Engine.FundKeysFor(DefaultKeys(uuid), id) == FundKeysOf(KeyOr(None, "fund:" + uuid(id)))
    ensures Engine.SettleKeysFor(DefaultKeys(uuid), id) == SettleKeysOf(KeyOr(None, "settle:" + uuid(id)))
    ensures Engine.ChargebackKeysFor(DefaultKeys(uuid), id) == ChargebackKeysOf(KeyOr(None, "chargeback:" + uuid(id)))
    ensures DefaultKeys(uuid)(WriteOffKey(id)) == WriteOffKeyOf(KeyOr(None, "write-off:" + uuid(id)))
  {
    ControllerDefaults(uuid, id);
  }

  lemma FundIsStep(ks: KeyScheme, db: Db, id: nat, advancePct: int, now: int)
    ensures Engine.Attempt(ks, db, Engine.Call(Engine.Fund(id, advancePct), now))
         == Invoices.Fund(db, id, advancePct, Engine.FundKeysFor(ks, id), now)
  {
  }

  lemma SettleIsStep(ks: KeyScheme, db: Db, id: nat, now: int)
    ensures Engine.Attempt(ks, db, Engine.Call(Engine.Settle(id), now)) == Invoices.Settle(db, id, Engine.SettleKeysFor(ks, id), now)
  {
  }

  lemma ChargeBackIsStep(ks: KeyScheme, db: Db, id: nat, amount: nat, now: int)
    ensures Engine.Attempt(ks, db, Engine.Call(Engine.ChargeBack(id, amount), now))
         == Invoices.ChargeBack(db, id, amount, Engine.ChargebackKeysFor(ks, id), now)
  {
  }

  lemma WriteOffIsStep(ks: KeyScheme, db: Db, id: nat, now: int)
    ensures Engine.Attempt(ks, db, Engine.Call(Engine.WriteOff(id), now)) == Invoices.WriteOff(db, id, ks(WriteOffKey(id)), now)
  {
  }

  /** What each route does without a header is the machine's step. */
  lemma RoutesAreSteps(uuid: nat -> string, db: Db, id: nat, amount: nat, advancePct: int, now: int)
    ensures Engine.Attempt(DefaultKeys(uuid), db, Engine.Call(Engine.Fund(id, advancePct), now))
         == Invoices.Fund(db, id, advancePct, FundKeysOf(KeyOr(None, "fund:" + uuid(id))), now)
    ensures Engine.Attempt(DefaultKeys(uuid), db, Engine.Call(Engine.Settle(id), now))
         == Invoices.Settle(db, id, SettleKeysOf(KeyOr(None, "settle:" + uuid(id))), now)
    ensures Engine.Attempt(DefaultKeys(uuid), db, Engine.Call(Engine.ChargeBack(id, amount), now))
         == Invoices.ChargeBack(db, id, amount, ChargebackKeysOf(KeyOr(None, "chargeback:" + uuid(id))), now)
    ensures Engine.Attempt(DefaultKeys(uuid), db, Engine.Call(Engine.WriteOff(id), now))
         == Invoices.WriteOff(db, id, WriteOffKeyOf(KeyOr(None, "write-off:" + uuid(id))), now)
  {
    KeysOfRoutes(uuid, id);
    FundIsStep(DefaultKeys(uuid), db, id, advancePct, now);
    SettleIsStep(DefaultKeys(uuid), db, id, now);
    ChargeBackIsStep(DefaultKeys(uuid), db, id, amount, now);
    WriteOffIsStep(DefaultKeys(uuid), db, id, now);
  }
}
