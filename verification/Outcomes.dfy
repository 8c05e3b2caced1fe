/** When each operation on invoices and payments succeeds, what it does then, and what it throws otherwise, said in terms of
    the tables alone. */
module Outcomes {
  import opened Wrappers
  import opened Sums
  import opened StateMachine
  import opened Credit
  import opened Ledger
  import opened Keys
  import opened Schema
  import opened Engine
  import Invoices
  import Fees

  /** Invoice id is taken to a status and gets one history row; nothing else changes in invoices and history. */
  ghost predicate Ends(db: Db, r: Result<Db>, id: nat, from: Status, to: Status, now: int) {
    && r.Ok? && id < |db.invoices| == |r.value.invoices|
    && r.value.invoices[id].status == to
    && r.value.invoices[id] == db.invoices[id].(status := to, advanceAmount := r.value.invoices[id].advanceAmount,
                                                reserveAmount := r.value.invoices[id].reserveAmount)
    && (forall j :: 0 <= j < |db.invoices| && j != id ==> r.value.invoices[j] == db.invoices[j])
    && r.value.history == db.history + [StatusRow(id, from, to, now)]
  }

  /** The same without touching any other table or the invoice's amounts. */
  ghost predicate EndsQuietly(db: Db, r: Result<Db>, id: nat, from: Status, to: Status, now: int) {
    && Ends(db, r, id, from, to, now)
    && r.value.invoices[id] == db.invoices[id].(status := to)
    && r.value == db.(invoices := r.value.invoices, history := r.value.history)
  }

  // ---- From upload to approval

  /** A new invoice needs approved parties and a number its broker has not used; it is uploaded as it was sent. */
  lemma CreateOutcome(ks: KeyScheme, db: Db, brokerId: nat, mcId: nat, number: string, total: nat, gallons: nat, transactable: bool, now: int)
    ensures var r := Attempt(ks, db, Call(Create(brokerId, mcId, number, total, gallons, transactable), now));
            var used := exists j :: 0 <= j < |db.invoices| && db.invoices[j].brokerId == brokerId && db.invoices[j].invoiceNumber == number;
            && (r.Ok? <==> transactable && !used)
            && (!transactable ==> r == Err(NotTransactable))
            && (transactable && used ==> r == Err(DuplicateInvoiceNumber))
            && (r.Ok? ==>
                  && r.value.invoices
                     == db.invoices + [Invoice(|db.invoices|, number, brokerId, mcId, total, gallons, Uploaded, false, None, None)]
                  && r.value.history == db.history + [StatusRow(|db.invoices|, Draft, Uploaded, now)]
                  && r.value == db.(invoices := r.value.invoices, history := r.value.history))
  {
    var found := FindFirst(db.invoices, Invoices.HasNumber(brokerId, number));
    if found.None? {
      forall j | 0 <= j < |db.invoices| ensures !(db.invoices[j].brokerId == brokerId && db.invoices[j].invoiceNumber == number) {
        assert !Invoices.HasNumber(brokerId, number)(db.invoices[j]);
      }
    }
  }

  /** The handlers that check at most that a document or an approved company is there go through from any status; for
      approvals see ApprovalOutcome. */
  lemma HandlerOutcome(ks: KeyScheme, db: Db, id: nat, h: Invoices.Handler, ready: bool, now: int)
    ensures var r := Attempt(ks, db, Call(Handle(id, h, ready), now));
            if id >= |db.invoices| then r == Err(InvoiceNotFound)
            else
              match h
              case StartExtraction => if ready then EndsQuietly(db, r, id, Uploaded, Extracting, now) else r == Err(NoDocument)
              case FinishExtraction => EndsQuietly(db, r, id, Extracting, PendingBrokerReview, now)
              case SubmitForApproval => EndsQuietly(db, r, id, PendingBrokerReview, PendingMcApproval, now)
              case McApprove =>
                if ready then EndsQuietly(db, r, id, PendingMcApproval, PendingUnderwriting, now) else r == Err(NotTransactable)
              case UnderwriteApprove => true
              case UnderwriteReject => EndsQuietly(db, r, id, PendingUnderwriting, Rejected, now)
              case UnderwriteRequestInfo => EndsQuietly(db, r, id, PendingUnderwriting, InfoRequested, now)
              case RespondToInfoRequest => EndsQuietly(db, r, id, InfoRequested, PendingUnderwriting, now)
  {
  }

  /** The limit gate: the company needs a limit row with room for the whole amount. */
  ghost predicate HasRoom(t: CreditTables, mcId: nat, amount: int) {
    mcId in t.limits && t.limits[mcId].currentUsed + amount <= t.limits[mcId].totalLimit
  }

  /** What the gate throws: no limit row, or by how much the amount does not fit. */
  ghost predicate RefusedForRoom(t: CreditTables, mcId: nat, amount: int, e: Error) {
    if mcId !in t.limits then e == LimitNotConfigured
    else e == LimitExceeded(t.limits[mcId].currentUsed + amount - t.limits[mcId].totalLimit) && 0 < e.overBy
  }

  /** An approval goes through if and only if the whole amount fits under the company's limit. */
  lemma ApprovalOutcome(ks: KeyScheme, db: Db, id: nat, ready: bool, now: int)
    ensures var r := Attempt(ks, db, Call(Handle(id, Invoices.UnderwriteApprove, ready), now));
            if id >= |db.invoices| then r == Err(InvoiceNotFound)
            else
              var inv := db.invoices[id];
              && (r.Ok? <==> HasRoom(db.credit, inv.mcId, inv.totalAmount))
              && (r.Ok? ==> EndsQuietly(db, r, id, PendingUnderwriting, ApprovedForFunding, now))
              && (r.Err? ==> RefusedForRoom(db.credit, inv.mcId, inv.totalAmount, r.error))
  {
  }

  /** A dispute is opened with the status change; a resolution closes the first open one and reinstates or cancels. */
  lemma DisputeOutcome(ks: KeyScheme, db: Db, id: nat, reinstate: bool, now: int)
    ensures var raised := Attempt(ks, db, Call(RaiseDispute(id), now));
            if id >= |db.invoices| then raised == Err(InvoiceNotFound)
            else
              && Ends(db, raised, id, PendingMcApproval, McDisputed, now)
              && raised.value == db.(invoices := raised.value.invoices, history := raised.value.history,
                                     disputes := db.disputes + [Dispute(id, Open)])
    ensures var resolved := Attempt(ks, db, Call(ResolveDispute(id, reinstate), now));
            if id >= |db.invoices| then resolved == Err(InvoiceNotFound)
            else
              && Ends(db, resolved, id, McDisputed, if reinstate then PendingMcApproval else Cancelled, now)
              && resolved.value == db.(invoices := resolved.value.invoices, history := resolved.value.history,
                                       disputes := resolved.value.disputes)
              && |resolved.value.disputes| == |db.disputes|
              && forall j :: 0 <= j < |db.disputes| ==>
                   resolved.value.disputes[j] == (if IsFirstOpen(db.disputes, id, j) then Dispute(id, Resolved) else db.disputes[j])
  {
  }

  ghost predicate IsFirstOpen(disputes: seq<Dispute>, id: nat, j: nat)
    requires j < |disputes|
  {
    disputes[j] == Dispute(id, Open) && forall i :: 0 <= i < j ==> disputes[i] != Dispute(id, Open)
  }

  /** Cancelling goes through from exactly five statuses. */
  lemma CancelOutcome(ks: KeyScheme, db: Db, id: nat, now: int)
    ensures var r := Attempt(ks, db, Call(Cancel(id), now));
            if id >= |db.invoices| then r == Err(InvoiceNotFound)
            else
              var s := db.invoices[id].status;
              if s == Draft || s == Uploaded || s == PendingBrokerReview || s == PendingMcApproval || s == McDisputed
              then EndsQuietly(db, r, id, s, Cancelled, now) else r == Err(IllegalTransition)
  {
  }

  // ---- Money moves

  /** A credit change goes through if its key is known or the company has a limit row. */
  ghost predicate Changeable(t: CreditTables, mcId: nat, key: string) {
    mcId in t.limits || LogHasKey(t.changeLog, key)
  }

  lemma FundOutcome(ks: KeyScheme, db: Db, id: nat, advancePct: int, now: int)
    ensures var r := Attempt(ks, db, Call(Fund(id, advancePct), now));
            if id >= |db.invoices| then r == Err(InvoiceNotFound)
            else
              var inv := db.invoices[id];
              && (r.Ok? <==> inv.status == ApprovedForFunding && HasRoom(db.credit, inv.mcId, inv.totalAmount))
              && (r.Ok? ==> Ends(db, r, id, ApprovedForFunding, Funded, now))
              && (inv.status != ApprovedForFunding ==> r == Err(NotApprovedForFunding))
              && (r.Err? && inv.status == ApprovedForFunding ==> RefusedForRoom(db.credit, inv.mcId, inv.totalAmount, r.error))
  {
  }

  lemma SettleOutcome(ks: KeyScheme, db: Db, id: nat, now: int)
    ensures var r := Attempt(ks, db, Call(Settle(id), now));
            if id >= |db.invoices| then r == Err(InvoiceNotFound)
            else
              var inv, matched := db.invoices[id], Sum(db.matches, MatchedToInvoice(id));
              if inv.status != Funded then r == Err(NotFunded)
              else if inv.reserveHold then r == Err(HoldActive)
              else if matched < inv.totalAmount then r == Err(ReconciliationIncomplete)
              else if !Changeable(db.credit, inv.mcId, ks(SettlementCreditKey(id))) then r == Err(LimitNotConfigured)
              else Ends(db, r, id, Funded, Settled, now) && r.value.invoices[id] == inv.(status := Settled)
  {
  }

  /** A chargeback of any amount adds its record. */
  lemma ChargeBackOutcome(ks: KeyScheme, db: Db, id: nat, amount: nat, now: int)
    ensures var r := Attempt(ks, db, Call(ChargeBack(id, amount), now));
            if id >= |db.invoices| then r == Err(InvoiceNotFound)
            else
              var inv := db.invoices[id];
              if inv.status != Funded then r == Err(NotFunded)
              else if !Changeable(db.credit, inv.mcId, ks(ChargebackCreditKey(id))) then r == Err(LimitNotConfigured)
              else
                && Ends(db, r, id, Funded, ChargedBack, now) && r.value.invoices[id] == inv.(status := ChargedBack)
                && |r.value.chargebacks| == |db.chargebacks| + 1 && r.value.chargebacks[..|db.chargebacks|] == db.chargebacks
                && var c := r.value.chargebacks[|db.chargebacks|];
                   c.invoiceId == id && c.amount == amount && c.status == Completed
  {
  }

  lemma WriteOffOutcome(ks: KeyScheme, db: Db, id: nat, now: int)
    ensures var r := Attempt(ks, db, Call(WriteOff(id), now));
            if id >= |db.invoices| then r == Err(InvoiceNotFound)
            else if db.invoices[id].status != ChargedBack then r == Err(NotChargedBack)
            else Ends(db, r, id, ChargedBack, WrittenOff, now) && r.value.invoices[id] == db.invoices[id].(status := WrittenOff)
  {
  }

  /** Holds are for funded invoices without one, and only a held invoice can be released, in whatever status. */
  lemma HoldOutcome(ks: KeyScheme, db: Db, id: nat, now: int)
    ensures var placed := Attempt(ks, db, Call(PlaceReserveHold(id), now));
            if id >= |db.invoices| then placed == Err(InvoiceNotFound)
            else if db.invoices[id].status != Funded then placed == Err(NotFunded)
            else if db.invoices[id].reserveHold then placed == Err(HoldActive)
            else HoldSet(db, placed, id, true)
    ensures var released := Attempt(ks, db, Call(ReleaseReserveHold(id), now));
            if id >= |db.invoices| then released == Err(InvoiceNotFound)
            else if !db.invoices[id].reserveHold then released == Err(NoActiveHold)
            else HoldSet(db, released, id, false)
  {
  }

  /** Only the flag of the invoice and the hold events change. */
  ghost predicate HoldSet(db: Db, r: Result<Db>, id: nat, held: bool)
    requires id < |db.invoices|
  {
    r.Ok? && r.value == db.(invoices := db.invoices[id := db.invoices[id].(reserveHold := held)], holds := r.value.holds)
  }

  // ---- Payments

  lemma PaymentOutcome(ks: KeyScheme, db: Db, mcId: nat, amount: nat, known: bool, now: int)
    ensures var r := Attempt(ks, db, Call(RecordPayment(mcId, amount, known), now));
            && (!known ==> r == Err(CompanyNotFound))
            && (known ==>
                  && r.Ok? && r.value.payments == db.payments + [Payment(|db.payments|, mcId, amount, Unmatched)]
                  && r.value == db.(payments := r.value.payments, ledger := r.value.ledger))
  {
  }

  lemma MatchOutcome(ks: KeyScheme, db: Db, paymentId: nat, invoiceId: nat, amount: nat, now: int)
    ensures var r := Attempt(ks, db, Call(MatchPayment(paymentId, invoiceId, amount), now));
            if paymentId >= |db.payments| then r == Err(PaymentNotFound)
            else if invoiceId >= |db.invoices| then r == Err(InvoiceNotFound)
            else if db.invoices[invoiceId].mcId != db.payments[paymentId].mcId then r == Err(DifferentCompanies)
            else
              && r.Ok? && r.value == db.(matches := r.value.matches, payments := r.value.payments)
              && r.value.matches == db.matches + [Match(paymentId, invoiceId, amount)]
              && |r.value.payments| == |db.payments|
              && (forall p :: 0 <= p < |db.payments| && p != paymentId ==> r.value.payments[p] == db.payments[p])
              && var paid, status := Sum(db.matches, MatchedToPayment(paymentId)) + amount, r.value.payments[paymentId].status;
              && r.value.payments[paymentId] == db.payments[paymentId].(status := status)
              && (status == PartiallyMatched <==> paid < db.payments[paymentId].amount)
              && (status == FullyMatched <==> paid == db.payments[paymentId].amount)
              && (status == Overpaid <==> paid > db.payments[paymentId].amount)
  {
    SumAppend(db.matches, Match(paymentId, invoiceId, amount), MatchedToPayment(paymentId));
  }
}
