/** Payments, matches and settlement: a settled invoice is covered by matches, and matches by received cash. */
module Settlement {
  import opened Wrappers
  import opened Sums
  import opened StateMachine
  import opened Credit
  import opened Ledger
  import opened Keys
  import opened Schema
  import opened Engine
  import opened LedgerWrites
  import Exposure
  import Invoices

  function PaidBy(mcId: nat): Payment -> int {
    (p: Payment) => if p.mcId == mcId then p.amount else 0
  }

  /** Each match joins a payment and an invoice of one Machinery Company. */
  ghost predicate MatchesJoin(db: Db) {
    forall k :: 0 <= k < |db.matches| ==>
      && db.matches[k].paymentId < |db.payments|
      && db.matches[k].invoiceId < |db.invoices|
      && db.payments[db.matches[k].paymentId].mcId == db.invoices[db.matches[k].invoiceId].mcId
  }

  ghost predicate RowsNumbered(db: Db) {
    && (forall i :: 0 <= i < |db.invoices| ==> db.invoices[i].id == i)
    && (forall p :: 0 <= p < |db.payments| ==> db.payments[p].id == p)
  }

  predicate Matched(matches: seq<Match>, paymentId: nat) {
    exists k :: 0 <= k < |matches| && matches[k].paymentId == paymentId
  }

  /** What a payment's status says about it: whether it has a match, and how its matches compare with its amount. */
  ghost predicate StatusFits(status: PaymentStatus, hasMatch: bool, matched: int, amount: int) {
    && (status == Unmatched <==> !hasMatch)
    && (status == PartiallyMatched <==> hasMatch && matched < amount)
    && (status == FullyMatched <==> hasMatch && matched == amount)
    && (status == Overpaid <==> hasMatch && matched > amount)
  }

  ghost predicate StatusesDerived(db: Db) {
    forall p :: 0 <= p < |db.payments| ==>
      StatusFits(db.payments[p].status, Matched(db.matches, p), Sum(db.matches, MatchedToPayment(p)), db.payments[p].amount)
  }

  /** The ledger's receipts of a company are its payments. */
  ghost predicate ReceiptsOk(ks: KeyScheme, db: Db) {
    && (forall mcId: nat :: Sum(db.ledger, ReceiptsOf(mcId)) == Sum(db.payments, PaidBy(mcId)))
    && (forall p: nat :: HasKey(db.ledger, ks(ReceiptKey(p))) ==> p < |db.payments|)
  }

  ghost predicate SettledCovered(db: Db) {
    forall i :: 0 <= i < |db.invoices| && db.invoices[i].status == Settled ==>
      db.invoices[i].totalAmount <= Sum(db.matches, MatchedToInvoice(i))
  }

  // ---- Steps

  lemma {:induction false} ReceiptsUntouched(ks: KeyScheme, ledger: seq<LedgerEntry>, written: seq<Written>)
    requires Injective(ks)
    requires forall j :: 0 <= j < |written| ==> WellWritten(ks, written[j]) && !written[j].name.ReceiptKey?
    ensures var ledger' := RecordWritten(ledger, written);
            && (forall mcId: nat :: Sum(ledger', ReceiptsOf(mcId)) == Sum(ledger, ReceiptsOf(mcId)))
            && (forall p: nat :: HasKey(ledger', ks(ReceiptKey(p))) <==> HasKey(ledger, ks(ReceiptKey(p))))
  {
    if written != [] {
      var n := |written| - 1;
      ReceiptsUntouched(ks, ledger, written[..n]);
      var before := RecordWritten(ledger, written[..n]);
      var e := written[n].entry;
      forall mcId: nat ensures Sum(Record(before, e), ReceiptsOf(mcId)) == Sum(before, ReceiptsOf(mcId)) {
        SumAppend(before, e, ReceiptsOf(mcId));
      }
      forall p: nat ensures HasKey(Record(before, e), ks(ReceiptKey(p))) <==> HasKey(before, ks(ReceiptKey(p))) {
        RecordKeys(before, e, ks(ReceiptKey(p)));
      }
    }
  }

  lemma ReceiptsAfterOther(ks: KeyScheme, db: Db, c: Call)
    requires Injective(ks) && ReceiptsOk(ks, db) && Attempt(ks, db, c).Ok? && !c.event.RecordPayment?
    requires |Attempt(ks, db, c).value.payments| == |db.payments|
    requires forall mcId: nat :: Sum(Attempt(ks, db, c).value.payments, PaidBy(mcId)) == Sum(db.payments, PaidBy(mcId))
    ensures ReceiptsOk(ks, Attempt(ks, db, c).value)
  {
    LedgerOfStep(ks, db, c);
    WrittenFit(ks, db, c.event);
    ReceiptsUntouched(ks, db.ledger, WrittenBy(ks, db, c.event));
  }

  lemma PaymentsAfterMatch(db: Db, paymentId: nat, invoiceId: nat, amount: nat, mcId: nat)
    requires Invoices.MatchPayment(db, paymentId, invoiceId, amount).Ok?
    ensures Sum(Invoices.MatchPayment(db, paymentId, invoiceId, amount).value.payments, PaidBy(mcId)) == Sum(db.payments, PaidBy(mcId))
  {
    var db' := Invoices.MatchPayment(db, paymentId, invoiceId, amount).value;
    SumUpdate(db.payments, paymentId, db'.payments[paymentId], PaidBy(mcId));
  }

  lemma ReceiptsAfterPayment(ks: KeyScheme, db: Db, mcId: nat, amount: nat)
    requires Injective(ks) && ReceiptsOk(ks, db)
    ensures ReceiptsOk(ks, Invoices.RecordPayment(db, mcId, amount, true, ks(ReceiptKey(|db.payments|))).value)
  {
    var db' := Invoices.RecordPayment(db, mcId, amount, true, ks(ReceiptKey(|db.payments|))).value;
    var e := LedgerEntry(PaymentReceipt, amount, None, None, Some(mcId), ks(ReceiptKey(|db.payments|)));
    var payment := Payment(|db.payments|, mcId, amount, Unmatched);
    assert !HasKey(db.ledger, e.key);
    forall m: nat ensures Sum(db'.ledger, ReceiptsOf(m)) == Sum(db'.payments, PaidBy(m)) {
      SumAppend(db.ledger, e, ReceiptsOf(m));
      SumAppend(db.payments, payment, PaidBy(m));
    }
    forall p: nat | HasKey(db'.ledger, ks(ReceiptKey(p))) ensures p < |db'.payments| {
      RecordKeys(db.ledger, e, ks(ReceiptKey(p)));
    }
  }

  lemma ReceiptsAfterMatching(ks: KeyScheme, db: Db, c: Call)
    requires Injective(ks) && ReceiptsOk(ks, db) && Attempt(ks, db, c).Ok? && c.event.MatchPayment?
    ensures ReceiptsOk(ks, Next(ks, db, c))
  {
    forall mcId: nat ensures Sum(Next(ks, db, c).payments, PaidBy(mcId)) == Sum(db.payments, PaidBy(mcId)) {
      PaymentsAfterMatch(db, c.event.paymentId, c.event.invoiceId, c.event.amount, mcId);
    }
    ReceiptsAfterOther(ks, db, c);
  }

  lemma ReceiptsAfterRecording(ks: KeyScheme, db: Db, c: Call)
    requires Injective(ks) && ReceiptsOk(ks, db) && Attempt(ks, db, c).Ok? && c.event.RecordPayment?
    ensures ReceiptsOk(ks, Next(ks, db, c))
  {
    RecordingStep(ks, db, c);
    ReceiptsAfterPayment(ks, db, c.event.mcId, c.event.amount);
  }

  lemma RecordingStep(ks: KeyScheme, db: Db, c: Call)
    requires Attempt(ks, db, c).Ok? && c.event.RecordPayment?
    ensures Next(ks, db, c) == Invoices.RecordPayment(db, c.event.mcId, c.event.amount, true, ks(ReceiptKey(|db.payments|))).value
  {
  }

  lemma ReceiptsElsewhere(ks: KeyScheme, db: Db, c: Call)
    requires Injective(ks) && ReceiptsOk(ks, db) && Attempt(ks, db, c).Ok? && !c.event.RecordPayment? && !c.event.MatchPayment?
    ensures ReceiptsOk(ks, Next(ks, db, c))
  {
    FrameOfStep(ks, db, c);
    ReceiptsAfterOther(ks, db, c);
  }

  lemma ReceiptsAfterStep(ks: KeyScheme, db: Db, c: Call)
    requires Injective(ks) && ReceiptsOk(ks, db)
    ensures ReceiptsOk(ks, Next(ks, db, c))
  {
    if Attempt(ks, db, c).Ok? {
      match c.event {
        case RecordPayment(_, _, _) => ReceiptsAfterRecording(ks, db, c);
        case MatchPayment(_, _, _) => ReceiptsAfterMatching(ks, db, c);
        case _ => ReceiptsElsewhere(ks, db, c);
      }
    }
  }

  /** Invoices keep their number and company for good. */
  ghost predicate KeepsInvoices(db: Db, db': Db) {
    && |db.invoices| <= |db'.invoices|
    && (forall i :: 0 <= i < |db.invoices| ==>
          && db'.invoices[i].id == db.invoices[i].id && db'.invoices[i].mcId == db.invoices[i].mcId
          && db'.invoices[i].brokerId == db.invoices[i].brokerId
          && db'.invoices[i].totalAmount == db.invoices[i].totalAmount && db'.invoices[i].gallons == db.invoices[i].gallons)
    && (forall i :: |db.invoices| <= i < |db'.invoices| ==> db'.invoices[i].id == i && db'.invoices[i].status != Settled)
  }

  lemma StepKeepsInvoices(ks: KeyScheme, db: Db, c: Call)
    requires StartsWhereItSays(db, c.event) && Attempt(ks, db, c).Ok?
    ensures KeepsInvoices(db, Attempt(ks, db, c).value)
  {
    var db' := Attempt(ks, db, c).value;
    ShapeOfStep(ks, db, c);
    if c.event.Create? {
      assert forall i :: 0 <= i < |db.invoices| ==> db'.invoices[i] == db'.invoices[..|db.invoices|][i];
    }
  }

  ghost predicate TablesOk(db: Db) {
    RowsNumbered(db) && MatchesJoin(db) && StatusesDerived(db)
  }

  lemma TablesAfterPayment(db: Db, mcId: nat, amount: nat, key: string)
    requires TablesOk(db)
    ensures TablesOk(Invoices.RecordPayment(db, mcId, amount, true, key).value)
  {
    var db' := Invoices.RecordPayment(db, mcId, amount, true, key).value;
    assert forall p :: 0 <= p < |db.payments| ==> db'.payments[p] == db.payments[p];
    assert !Matched(db.matches, |db.payments|);
  }

  lemma MatchedAppend(matches: seq<Match>, m: Match, p: nat)
    ensures Matched(matches + [m], p) <==> Matched(matches, p) || p == m.paymentId
    ensures p != m.paymentId ==> Sum(matches + [m], MatchedToPayment(p)) == Sum(matches, MatchedToPayment(p))
  {
    assert (matches + [m])[|matches|] == m;
    assert forall k :: 0 <= k < |matches| ==> (matches + [m])[k] == matches[k];
    SumAppend(matches, m, MatchedToPayment(p));
  }

  lemma TablesAfterMatch(db: Db, paymentId: nat, invoiceId: nat, amount: nat)
    requires TablesOk(db) && Invoices.MatchPayment(db, paymentId, invoiceId, amount).Ok?
    ensures TablesOk(Invoices.MatchPayment(db, paymentId, invoiceId, amount).value)
  {
    var db' := Invoices.MatchPayment(db, paymentId, invoiceId, amount).value;
    var m := Match(paymentId, invoiceId, amount);
    forall p | 0 <= p < |db.payments|
      ensures StatusFits(db'.payments[p].status, Matched(db'.matches, p), Sum(db'.matches, MatchedToPayment(p)), db'.payments[p].amount)
    {
      MatchedAppend(db.matches, m, p);
    }
  }

  lemma TablesAfterStep(ks: KeyScheme, db: Db, c: Call)
    requires TablesOk(db) && StartsWhereItSays(db, c.event)
    ensures TablesOk(Next(ks, db, c))
  {
    if Attempt(ks, db, c).Ok? {
      match c.event {
        case RecordPayment(mcId, amount, _) =>
          RecordingStep(ks, db, c);
          TablesAfterPayment(db, mcId, amount, ks(ReceiptKey(|db.payments|)));
        case MatchPayment(paymentId, invoiceId, amount) => TablesAfterMatch(db, paymentId, invoiceId, amount);
        case _ => TablesAfterOther(ks, db, c);
      }
    }
  }

  lemma TablesAfterOther(ks: KeyScheme, db: Db, c: Call)
    requires TablesOk(db) && StartsWhereItSays(db, c.event) && Attempt(ks, db, c).Ok?
    requires !c.event.RecordPayment? && !c.event.MatchPayment?
    ensures TablesOk(Next(ks, db, c))
  {
    FrameOfStep(ks, db, c);
    StepKeepsInvoices(ks, db, c);
    TablesElsewhere(db, Next(ks, db, c));
  }

  lemma TablesElsewhere(db: Db, db': Db)
    requires TablesOk(db) && KeepsInvoices(db, db') && db'.payments == db.payments && db'.matches == db.matches
    ensures TablesOk(db')
  {
  }

  /** Matches are only ever added. */
  lemma CoveredAfterMatch(db: Db, paymentId: nat, invoiceId: nat, amount: nat)
    requires SettledCovered(db) && Invoices.MatchPayment(db, paymentId, invoiceId, amount).Ok?
    ensures SettledCovered(Invoices.MatchPayment(db, paymentId, invoiceId, amount).value)
  {
    var m := Match(paymentId, invoiceId, amount);
    forall i: nat ensures Sum(db.matches, MatchedToInvoice(i)) <= Sum(db.matches + [m], MatchedToInvoice(i)) {
      SumAppend(db.matches, m, MatchedToInvoice(i));
    }
  }

  lemma SettleIsCovered(ks: KeyScheme, db: Db, c: Call)
    requires Attempt(ks, db, c).Ok? && c.event.Settle?
    ensures db.invoices[c.event.id].totalAmount <= Sum(db.matches, MatchedToInvoice(c.event.id))
  {
  }

  lemma CoveredElsewhere(db: Db, db': Db)
    requires SettledCovered(db) && KeepsInvoices(db, db') && db'.matches == db.matches
    requires forall i :: 0 <= i < |db.invoices| && db'.invoices[i].status == Settled ==>
               db.invoices[i].status == Settled || db.invoices[i].totalAmount <= Sum(db.matches, MatchedToInvoice(i))
    ensures SettledCovered(db')
  {
  }

  lemma CoveredAfterStep(ks: KeyScheme, db: Db, c: Call)
    requires SettledCovered(db) && StartsWhereItSays(db, c.event)
    ensures SettledCovered(Next(ks, db, c))
  {
    if Attempt(ks, db, c).Ok? {
      if c.event.MatchPayment? {
        CoveredAfterMatch(db, c.event.paymentId, c.event.invoiceId, c.event.amount);
      } else {
        FrameOfStep(ks, db, c);
        StepKeepsInvoices(ks, db, c);
        ShapeOfStep(ks, db, c);
        if c.event.Settle? {
          SettleIsCovered(ks, db, c);
        }
        OnlySettleSettles(db, Next(ks, db, c), c);
        CoveredElsewhere(db, Next(ks, db, c));
      }
    }
  }

  lemma OnlySettleSettles(db: Db, db': Db, c: Call)
    requires KeepsInvoices(db, db')
    requires IsMove(c.event) ==> Moves(db, db', c.event.id, EdgeOf(db, c.event).from, EdgeOf(db, c.event).to, c.now)
    requires c.event.Create? ==> Uploads(db, db', c.now)
    requires !IsMove(c.event) && !c.event.Create? ==> StaysPut(db, db')
    ensures forall i :: 0 <= i < |db.invoices| && db'.invoices[i].status == Settled ==>
              db.invoices[i].status == Settled || (c.event.Settle? && c.event.id == i)
  {
    if c.event.Create? {
      assert forall i :: 0 <= i < |db.invoices| ==> db'.invoices[i] == db'.invoices[..|db.invoices|][i];
    }
  }

  lemma {:induction false} SettlementOfRun(ks: KeyScheme, calls: seq<Call>)
    requires Injective(ks) && Orderly(ks, calls)
    ensures var db := After(ks, calls); TablesOk(db) && ReceiptsOk(ks, db) && SettledCovered(db)
  {
    if calls != [] {
      var n := |calls| - 1;
      SettlementOfRun(ks, calls[..n]);
      TablesAfterStep(ks, After(ks, calls[..n]), calls[n]);
      ReceiptsAfterStep(ks, After(ks, calls[..n]), calls[n]);
      CoveredAfterStep(ks, After(ks, calls[..n]), calls[n]);
    }
  }

  // ---- Cash conservation

  function SettledTotal(mcId: nat): Invoice -> int {
    (inv: Invoice) => if inv.mcId == mcId && inv.status == Settled then inv.totalAmount else 0
  }

  function MatchedToSettled(matches: seq<Match>, mcId: nat): Invoice -> int {
    (inv: Invoice) => if inv.mcId == mcId && inv.status == Settled then Sum(matches, MatchedToInvoice(inv.id)) else 0
  }

  function MatchedFrom(matches: seq<Match>, mcId: nat): Payment -> int {
    (p: Payment) => if p.mcId == mcId then Sum(matches, MatchedToPayment(p.id)) else 0
  }

  /** By how much a payment's matches exceed it. */
  function Excess(matches: seq<Match>, mcId: nat): Payment -> int {
    (p: Payment) => if p.mcId == mcId then Max(0, Sum(matches, MatchedToPayment(p.id)) - p.amount) else 0
  }

  /** Counting matches twice: what is matched to a company's settled invoices came out of its payments. One match at
      a time raises one invoice's sum and, at least as much, one payment's. */
  lemma {:induction false} MatchesCountedTwice(invoices: seq<Invoice>, payments: seq<Payment>, matches: seq<Match>, mcId: nat)
    requires forall i :: 0 <= i < |invoices| ==> invoices[i].id == i
    requires forall p :: 0 <= p < |payments| ==> payments[p].id == p
    requires forall k :: 0 <= k < |matches| ==>
               && matches[k].paymentId < |payments| && matches[k].invoiceId < |invoices|
               && payments[matches[k].paymentId].mcId == invoices[matches[k].invoiceId].mcId
    ensures Sum(invoices, MatchedToSettled(matches, mcId)) <= Sum(payments, MatchedFrom(matches, mcId))
  {
    if matches == [] {
      SumOfZeros(invoices, MatchedToSettled(matches, mcId));
      SumNonNegative(payments, MatchedFrom(matches, mcId));
    } else {
      var n := |matches| - 1;
      var m := matches[n];
      MatchesCountedTwice(invoices, payments, matches[..n], mcId);
      SumPoint(invoices, m.invoiceId, MatchedToSettled(matches[..n], mcId), MatchedToSettled(matches, mcId));
      SumPoint(payments, m.paymentId, MatchedFrom(matches[..n], mcId), MatchedFrom(matches, mcId));
    }
  }

  lemma {:induction false} MatchedWithinPaid(payments: seq<Payment>, matches: seq<Match>, mcId: nat)
    ensures Sum(payments, MatchedFrom(matches, mcId)) <= Sum(payments, PaidBy(mcId)) + Sum(payments, Excess(matches, mcId))
  {
    if payments != [] {
      MatchedWithinPaid(payments[..|payments| - 1], matches, mcId);
    }
  }

  /** In every reachable state a company's settled invoices total at most its recorded receipts plus the excess of its
      overmatched payments. */
  lemma SettledWithinReceipts(ks: KeyScheme, calls: seq<Call>, mcId: nat)
    requires Injective(ks) && Orderly(ks, calls)
    ensures var db := After(ks, calls);
            Sum(db.invoices, SettledTotal(mcId)) <= Sum(db.ledger, ReceiptsOf(mcId)) + Sum(db.payments, Excess(db.matches, mcId))
  {
    var db := After(ks, calls);
    SettlementOfRun(ks, calls);
    SumAtMost(db.invoices, SettledTotal(mcId), MatchedToSettled(db.matches, mcId));
    MatchesCountedTwice(db.invoices, db.payments, db.matches, mcId);
    MatchedWithinPaid(db.payments, db.matches, mcId);
  }

  ghost predicate NoneOverpaid(db: Db, mcId: nat) {
    forall p :: 0 <= p < |db.payments| && db.payments[p].mcId == mcId ==> db.payments[p].status != Overpaid
  }

  /** The excess is zero exactly when none of the company's payments is OVERPAID; then settled invoices are fully
      covered by cash received. */
  lemma CashConservation(ks: KeyScheme, calls: seq<Call>, mcId: nat)
    requires Injective(ks) && Orderly(ks, calls)
    ensures var db := After(ks, calls);
            && (Sum(db.payments, Excess(db.matches, mcId)) == 0 <==> NoneOverpaid(db, mcId))
            && (NoneOverpaid(db, mcId) ==> Sum(db.invoices, SettledTotal(mcId)) <= Sum(db.ledger, ReceiptsOf(mcId)))
  {
    var db := After(ks, calls);
    SettledWithinReceipts(ks, calls, mcId);
    SettlementOfRun(ks, calls);
    ExcessMeansOverpaid(db, mcId);
  }

  lemma {:induction false} UnmatchedHasNone(matches: seq<Match>, p: nat)
    requires !Matched(matches, p)
    ensures Sum(matches, MatchedToPayment(p)) == 0
  {
    if matches != [] {
      var n := |matches| - 1;
      assert forall k :: 0 <= k < n ==> matches[..n][k] == matches[k];
      UnmatchedHasNone(matches[..n], p);
    }
  }

  lemma ExcessMeansOverpaid(db: Db, mcId: nat)
    requires TablesOk(db)
    ensures Sum(db.payments, Excess(db.matches, mcId)) == 0 <==> NoneOverpaid(db, mcId)
  {
    var f := Excess(db.matches, mcId);
    forall p | 0 <= p < |db.payments|
      ensures f(db.payments[p]) == 0 <==> (db.payments[p].mcId == mcId ==> db.payments[p].status != Overpaid)
      ensures f(db.payments[p]) <= Sum(db.payments, f)
    {
      if !Matched(db.matches, p) {
        UnmatchedHasNone(db.matches, p);
      }
      SumAtLeastTerm(db.payments, p, f);
    }
    if NoneOverpaid(db, mcId) {
      SumOfZeros(db.payments, f);
    }
  }

  // ---- The two settlement gates

  /** In every reachable state the reserve release check lists an invoice exactly when settle would go through, under
      any keys and at any time. */
  lemma SettlementGatesAgree(ks: KeyScheme, calls: seq<Call>, id: nat, keys: KeyPair, now: int)
    requires Injective(ks) && Orderly(ks, calls) && id < |After(ks, calls).invoices|
    ensures var db := After(ks, calls);
            db.invoices[id] in Invoices.CheckReserveReleaseCandidates(db) <==> Invoices.Settle(db, id, keys, now).Ok?
  {
    var db := After(ks, calls);
    SettlementOfRun(ks, calls);
    OrderlyIsSparing(ks, calls);
    Exposure.CreditOfRun(ks, calls);
    FilterMember(db.invoices, Invoices.ReleaseCandidate(db.matches), db.invoices[id]);
    GatesAgree(db, id, keys, now);
  }

  lemma GatesAgree(db: Db, id: nat, keys: KeyPair, now: int)
    requires id < |db.invoices| && db.invoices[id].id == id && Exposure.FundedHaveLimits(db)
    ensures Invoices.ReleaseCandidate(db.matches)(db.invoices[id]) <==> Invoices.Settle(db, id, keys, now).Ok?
  {
  }
}
