/** What each operation of the invoice service does to the tables. An operation that throws has no new tables. */
module Invoices {
  import opened Wrappers
  import opened Sums
  import opened StateMachine
  import opened Credit
  import opened Ledger
  import opened FeeCalculator
  import opened Keys
  import opened Schema

  /** Every status change goes through here: it is legal or it throws, and it leaves a history row. */
  function ChangeStatus(db: Db, id: nat, from: Status, to: Status, now: int): Result<Db>
    requires id < |db.invoices|
  {
    if !IsLegal(from, to) then Err(IllegalTransition)
    else Ok(db.(invoices := db.invoices[id := db.invoices[id].(status := to)],
                history := db.history + [StatusRow(id, from, to, now)]))
  }

  function HasNumber(brokerId: nat, invoiceNumber: string): Invoice -> bool {
    (inv: Invoice) => inv.brokerId == brokerId && inv.invoiceNumber == invoiceNumber
  }

  /** transactable: the broker's and the Machinery Company's onboarding are both approved. */
  function Create(db: Db, brokerId: nat, mcId: nat, invoiceNumber: string, totalAmount: nat, gallons: nat,
                  transactable: bool, now: int): Result<Db>
  {
    if !transactable then Err(NotTransactable)
    else if FindFirst(db.invoices, HasNumber(brokerId, invoiceNumber)).Some? then Err(DuplicateInvoiceNumber)
    else
      var id := |db.invoices|;
      var draft := Invoice(id, invoiceNumber, brokerId, mcId, totalAmount, gallons, Draft, false, None, None);
      ChangeStatus(db.(invoices := db.invoices + [draft]), id, Draft, Uploaded, now)
  }

  /** The handlers that name both statuses in their code and touch no other table. */
  datatype Handler =
    | StartExtraction
    | FinishExtraction
    | SubmitForApproval
    | McApprove
    | UnderwriteApprove
    | UnderwriteReject
    | UnderwriteRequestInfo
    | RespondToInfoRequest

  function FromOf(h: Handler): Status {
    match h
    case StartExtraction => Uploaded
    case FinishExtraction => Extracting
    case SubmitForApproval => PendingBrokerReview
    case McApprove => PendingMcApproval
    case UnderwriteApprove => PendingUnderwriting
    case UnderwriteReject => PendingUnderwriting
    case UnderwriteRequestInfo => PendingUnderwriting
    case RespondToInfoRequest => InfoRequested
  }

  function ToOf(h: Handler): Status {
    match h
    case StartExtraction => Extracting
    case FinishExtraction => PendingBrokerReview
    case SubmitForApproval => PendingMcApproval
    case McApprove => PendingUnderwriting
    case UnderwriteApprove => ApprovedForFunding
    case UnderwriteReject => Rejected
    case UnderwriteRequestInfo => InfoRequested
    case RespondToInfoRequest => PendingUnderwriting
  }

  /** ready: a document is attached (extraction), the Machinery Company is approved (mcApprove). The handlers do not
      look at the invoice's own status. */
  function RunHandler(db: Db, id: nat, h: Handler, ready: bool, now: int): Result<Db> {
    if id >= |db.invoices| then Err(InvoiceNotFound)
    else if h == StartExtraction && !ready then Err(NoDocument)
    else if h == McApprove && !ready then Err(NotTransactable)
    else
      var inv := db.invoices[id];
      var blocked := if h == UnderwriteApprove then LimitCheck(db.credit, inv.mcId, inv.totalAmount) else None;
      if blocked.Some? then Err(blocked.value)
      else ChangeStatus(db, id, FromOf(h), ToOf(h), now)
  }

  function RaiseDispute(db: Db, id: nat, now: int): Result<Db> {
    if id >= |db.invoices| then Err(InvoiceNotFound)
    else ChangeStatus(db.(disputes := db.disputes + [Dispute(id, Open)]), id, PendingMcApproval, McDisputed, now)
  }

  /** The first open dispute of the invoice, if any, is closed. */
  function CloseDispute(disputes: seq<Dispute>, id: nat): seq<Dispute> {
    match FindFirst(disputes, OpenDisputeOf(id))
    case Some(j) => disputes[j := disputes[j].(status := Resolved)]
    case None => disputes
  }

  function ResolveDispute(db: Db, id: nat, reinstate: bool, now: int): Result<Db> {
    if id >= |db.invoices| then Err(InvoiceNotFound)
    else ChangeStatus(db.(disputes := CloseDispute(db.disputes, id)), id, McDisputed,
                      if reinstate then PendingMcApproval else Cancelled, now)
  }

  /** What fund has read and computed before its transaction starts. */
  datatype FundCall = FundCall(id: nat, brokerId: nat, mcId: nat, totalAmount: nat, advance: int, reserve: int)

  function FundingTerms(inv: Invoice, id: nat, advancePct: int): FundCall {
    FundCall(id, inv.brokerId, inv.mcId, inv.totalAmount,
             RoundHalfAway(inv.totalAmount * advancePct, ADVANCE_SCALE),
             RoundHalfAway(inv.totalAmount * ADVANCE_SCALE - inv.totalAmount * advancePct, ADVANCE_SCALE))
  }

  /** The reads and checks of fund. */
  function FundGuard(db: Db, id: nat, advancePct: int): Result<FundCall> {
    if id >= |db.invoices| then Err(InvoiceNotFound)
    else
      var inv := db.invoices[id];
      if inv.status != ApprovedForFunding then Err(NotApprovedForFunding)
      else
        match LimitCheck(db.credit, inv.mcId, inv.totalAmount)
        case Some(e) => Err(e)
        case None => Ok(FundingTerms(inv, id, advancePct))
  }

  function DisbursementEntry(c: FundCall, key: string): LedgerEntry {
    LedgerEntry(FundingDisbursement, c.advance, Some(c.id), Some(c.brokerId), Some(c.mcId), key)
  }

  function ReserveHoldEntry(c: FundCall, key: string): LedgerEntry {
    LedgerEntry(ReserveHold, c.reserve, Some(c.id), Some(c.brokerId), Some(c.mcId), key)
  }

  function FundingDelta(c: FundCall, key: string): DeltaRequest {
    DeltaRequest(c.mcId, c.totalAmount, InvoiceFunded, Some(c.id), key)
  }

  /** The transaction of fund, on whatever the tables hold by then. */
  function FundCommit(db: Db, c: FundCall, keys: FundKeys, now: int): Result<Db>
    requires c.id < |db.invoices|
  {
    var changed :- ChangeStatus(db, c.id, ApprovedForFunding, Funded, now);
    var funded := changed.invoices[c.id].(advanceAmount := Some(c.advance), reserveAmount := Some(c.reserve));
    var ledger := Record(Record(changed.ledger, DisbursementEntry(c, keys.disbursement)), ReserveHoldEntry(c, keys.reserveHold));
    var credit :- ApplyDelta(changed.credit, FundingDelta(c, keys.credit));
    Ok(changed.(invoices := changed.invoices[c.id := funded], ledger := ledger, credit := credit))
  }

  function Fund(db: Db, id: nat, advancePct: int, keys: FundKeys, now: int): Result<Db> {
    var c :- FundGuard(db, id, advancePct);
    FundCommit(db, c, keys, now)
  }

  function MatchedTotal(db: Db, id: nat): int {
    Sum(db.matches, MatchedToInvoice(id))
  }

  /** An entry about an invoice, with the parties it names. */
  function InvoiceEntry(kind: EntryType, amount: int, inv: Invoice, id: nat, key: string): LedgerEntry {
    LedgerEntry(kind, amount, Some(id), Some(inv.brokerId), Some(inv.mcId), key)
  }

  function RestoreDelta(inv: Invoice, id: nat, reason: ChangeReason, key: string): DeltaRequest {
    DeltaRequest(inv.mcId, 0 - inv.totalAmount, reason, Some(id), key)
  }

  /** The transaction of settle, for the invoice as it was read before. */
  function SettleCommit(db: Db, id: nat, inv: Invoice, keys: KeyPair, now: int): Result<Db>
    requires id < |db.invoices|
  {
    var changed :- ChangeStatus(db, id, Funded, Settled, now);
    var released := if inv.reserveAmount.Some? then inv.reserveAmount.value else 0;
    var ledger := Record(changed.ledger, InvoiceEntry(ReserveRelease, released, inv, id, keys.entry));
    var credit :- ApplyDelta(changed.credit, RestoreDelta(inv, id, InvoiceSettled, keys.credit));
    Ok(changed.(ledger := ledger, credit := credit))
  }

  function Settle(db: Db, id: nat, keys: KeyPair, now: int): Result<Db> {
    if id >= |db.invoices| then Err(InvoiceNotFound)
    else
      var inv := db.invoices[id];
      if inv.status != Funded then Err(NotFunded)
      else if inv.reserveHold then Err(HoldActive)
      else if MatchedTotal(db, id) < inv.totalAmount then Err(ReconciliationIncomplete)
      else SettleCommit(db, id, inv, keys, now)
  }

  /** The reserve release check: the invoices it would report. */
  function ReleaseCandidate(matches: seq<Match>): Invoice -> bool {
    (inv: Invoice) => inv.status == Funded && !inv.reserveHold && Sum(matches, MatchedToInvoice(inv.id)) >= inv.totalAmount
  }

  function CheckReserveReleaseCandidates(db: Db): seq<Invoice> {
    Filter(db.invoices, ReleaseCandidate(db.matches))
  }

  function Cancel(db: Db, id: nat, now: int): Result<Db> {
    if id >= |db.invoices| then Err(InvoiceNotFound)
    else ChangeStatus(db, id, db.invoices[id].status, Cancelled, now)
  }

  function PlaceReserveHold(db: Db, id: nat): Result<Db> {
    if id >= |db.invoices| then Err(InvoiceNotFound)
    else if db.invoices[id].status != Funded then Err(NotFunded)
    else if db.invoices[id].reserveHold then Err(HoldActive)
    else Ok(db.(holds := db.holds + [HoldEvent(id, true)],
                invoices := db.invoices[id := db.invoices[id].(reserveHold := true)]))
  }

  /** The first active hold of the invoice, if any, is ended. */
  function EndHold(holds: seq<HoldEvent>, id: nat): seq<HoldEvent> {
    match FindFirst(holds, ActiveHoldOf(id))
    case Some(j) => holds[j := holds[j].(active := false)]
    case None => holds
  }

  function ReleaseReserveHold(db: Db, id: nat): Result<Db> {
    if id >= |db.invoices| then Err(InvoiceNotFound)
    else if !db.invoices[id].reserveHold then Err(NoActiveHold)
    else Ok(db.(holds := EndHold(db.holds, id),
                invoices := db.invoices[id := db.invoices[id].(reserveHold := false)]))
  }

  /** The transaction of chargeback, for the invoice as it was read before. */
  function ChargeBackCommit(db: Db, id: nat, inv: Invoice, amount: nat, keys: KeyPair, now: int): Result<Db>
    requires id < |db.invoices|
  {
    var changed :- ChangeStatus(db, id, Funded, ChargedBack, now);
    var entryId := Position(changed.ledger, keys.entry);
    var ledger := Record(changed.ledger, InvoiceEntry(ChargebackEntry, amount, inv, id, keys.entry));
    var credit :- ApplyDelta(changed.credit, RestoreDelta(inv, id, ChargedBackInvoice, keys.credit));
    Ok(changed.(chargebacks := db.chargebacks + [Chargeback(id, amount, Completed, Some(entryId))],
                ledger := ledger, credit := credit))
  }

  function ChargeBack(db: Db, id: nat, amount: nat, keys: KeyPair, now: int): Result<Db> {
    if id >= |db.invoices| then Err(InvoiceNotFound)
    else
      var inv := db.invoices[id];
      if inv.status != Funded then Err(NotFunded)
      else ChargeBackCommit(db, id, inv, amount, keys, now)
  }

  function WriteOff(db: Db, id: nat, key: string, now: int): Result<Db> {
    if id >= |db.invoices| then Err(InvoiceNotFound)
    else
      var inv := db.invoices[id];
      if inv.status != ChargedBack then Err(NotChargedBack)
      else
        var record := FindFirst(db.chargebacks, ChargebackOf(id));
        var changed :- ChangeStatus(db, id, ChargedBack, WrittenOff, now);
        var chargebacks := if record.Some? then db.chargebacks[record.value := db.chargebacks[record.value].(status := ChargebackWrittenOff)]
                           else db.chargebacks;
        var amount := if record.Some? then db.chargebacks[record.value].amount else inv.totalAmount;
        Ok(changed.(chargebacks := chargebacks,
                    ledger := Record(changed.ledger, InvoiceEntry(WriteOffEntry, amount, inv, id, key))))
  }

  // ---- Payments

  function RecordPayment(db: Db, mcId: nat, amount: nat, known: bool, key: string): Result<Db> {
    if !known then Err(CompanyNotFound)
    else
      var payment := Payment(|db.payments|, mcId, amount, Unmatched);
      Ok(db.(payments := db.payments + [payment],
             ledger := Record(db.ledger, LedgerEntry(PaymentReceipt, amount, None, None, Some(mcId), key))))
  }

  function DerivedStatus(matched: int, amount: int): PaymentStatus {
    if matched == amount then FullyMatched else if matched > amount then Overpaid else PartiallyMatched
  }

  function MatchPayment(db: Db, paymentId: nat, invoiceId: nat, amount: nat): Result<Db> {
    if paymentId >= |db.payments| then Err(PaymentNotFound)
    else if invoiceId >= |db.invoices| then Err(InvoiceNotFound)
    else if db.invoices[invoiceId].mcId != db.payments[paymentId].mcId then Err(DifferentCompanies)
    else
      var payment := db.payments[paymentId];
      var matches := db.matches + [Match(paymentId, invoiceId, amount)];
      var status := DerivedStatus(Sum(matches, MatchedToPayment(paymentId)), payment.amount);
      Ok(db.(matches := matches, payments := db.payments[paymentId := payment.(status := status)]))
  }
}
