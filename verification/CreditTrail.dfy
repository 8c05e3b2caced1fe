/** The change log rows of an invoice follow its status, one by one: reason, amount and company. */
module CreditTrail {
  import opened Wrappers
  import opened Sums
  import opened StateMachine
  import opened Credit
  import opened Keys
  import opened Schema
  import opened Engine
  import opened Exposure
  import Settlement

  /** What a row says about its invoice. */
  datatype Entered = Entered(reason: ChangeReason, delta: int, mcId: nat)

  function ChangesOf(log: seq<ChangeRow>, id: nat): seq<Entered> {
    if log == [] then []
    else
      var n := |log| - 1;
      var changes := ChangesOf(log[..n], id);
      if log[n].invoiceId == Some(id) then changes + [Entered(log[n].reason, log[n].delta, log[n].mcId)] else changes
  }

  /** The changes a status calls for: the whole amount when it was funded, and the same back when it was settled or charged
      back; a write-off changes nothing. */
  function Expected(s: Status, total: int, mcId: nat): seq<Entered> {
    if s == Funded then [Entered(InvoiceFunded, total, mcId)]
    else if s == Settled then [Entered(InvoiceFunded, total, mcId), Entered(InvoiceSettled, -total, mcId)]
    else if s == ChargedBack || s == WrittenOff then [Entered(InvoiceFunded, total, mcId), Entered(ChargedBackInvoice, -total, mcId)]
    else []
  }

  function ExpectedOf(db: Db, id: nat): seq<Entered> {
    if id < |db.invoices| then Expected(db.invoices[id].status, db.invoices[id].totalAmount, db.invoices[id].mcId) else []
  }

  ghost predicate ChangesMatch(db: Db) {
    forall id: nat :: ChangesOf(db.credit.changeLog, id) == ExpectedOf(db, id)
  }

  lemma ChangesAppend(log: seq<ChangeRow>, row: ChangeRow, id: nat)
    ensures ChangesOf(log + [row], id)
         == (if row.invoiceId == Some(id) then ChangesOf(log, id) + [Entered(row.reason, row.delta, row.mcId)] else ChangesOf(log, id))
  {
    assert (log + [row])[..|log|] == log;
  }

  /** One row was added to the log, about the invoice and for its company. */
  ghost predicate AddsRow(db: Db, db': Db, id: nat, reason: ChangeReason, delta: int) {
    var n := |db.credit.changeLog|;
    && id < |db.invoices| && |db'.credit.changeLog| == n + 1 && db'.credit.changeLog[..n] == db.credit.changeLog
    && db'.credit.changeLog[n].invoiceId == Some(id) && db'.credit.changeLog[n].mcId == db.invoices[id].mcId
    && db'.credit.changeLog[n].reason == reason && db'.credit.changeLog[n].delta == delta
  }

  function Signed(reason: ChangeReason, total: int): int {
    if reason == InvoiceFunded then total else -total
  }

  function ReasonOf(e: Event): ChangeReason {
    if e.Fund? then InvoiceFunded else if e.Settle? then InvoiceSettled else ChargedBackInvoice
  }

  /** A funding, a settlement and a chargeback each add one row. */
  lemma DeltaAddsRow(ks: KeyScheme, db: Db, c: Call, db': Db, total: int)
    requires CreditOk(ks, db) && Attempt(ks, db, c) == Ok(db')
    requires c.event.Fund? || c.event.Settle? || c.event.ChargeBack?
    requires c.event.id < |db.invoices| && total == db.invoices[c.event.id].totalAmount
    ensures AddsRow(db, db', c.event.id, ReasonOf(c.event), Signed(ReasonOf(c.event), total))
  {
    CreditOfMoneyMove(ks, db, c);
    DeltaStepMovesExposure(ks, db, c);
    KeyIsNew(ks, db, db', c.event.id, EdgeOf(db, c.event), c.now, DeltaOf(ks, db, c.event).value);
  }

  /** The invoice moves to the status that goes with the reason. */
  ghost predicate MovesFor(db: Db, db': Db, id: nat, reason: ChangeReason) {
    && id < |db.invoices| == |db'.invoices|
    && db.invoices[id].status == (if reason == InvoiceFunded then ApprovedForFunding else Funded)
    && db'.invoices[id].status == (if reason == InvoiceFunded then Funded else if reason == InvoiceSettled then Settled else ChargedBack)
    && db'.invoices[id].totalAmount == db.invoices[id].totalAmount && db'.invoices[id].mcId == db.invoices[id].mcId
    && forall j :: 0 <= j < |db.invoices| && j != id ==> db'.invoices[j] == db.invoices[j]
  }

  lemma MoveOf(ks: KeyScheme, db: Db, c: Call)
    requires Attempt(ks, db, c).Ok? && (c.event.Fund? || c.event.Settle? || c.event.ChargeBack?)
    ensures MovesFor(db, Attempt(ks, db, c).value, c.event.id, ReasonOf(c.event))
  {
    ShapeOfMoneyMove(ks, db, c);
  }

  lemma ChangesAfterRow(db: Db, db': Db, moved: nat, reason: ChangeReason, delta: int, id: nat)
    requires ChangesMatch(db) && MovesFor(db, db', moved, reason) && AddsRow(db, db', moved, reason, delta)
    requires reason == InvoiceFunded || reason == InvoiceSettled || reason == ChargedBackInvoice
    requires delta == Signed(reason, db.invoices[moved].totalAmount)
    ensures ChangesOf(db'.credit.changeLog, id) == ExpectedOf(db', id)
  {
    var n := |db.credit.changeLog|;
    assert db'.credit.changeLog == db.credit.changeLog + [db'.credit.changeLog[n]];
    ChangesAppend(db.credit.changeLog, db'.credit.changeLog[n], id);
    assert ChangesOf(db.credit.changeLog, id) == ExpectedOf(db, id);
  }

  lemma ChangesAfterMove(db: Db, db': Db, moved: nat, reason: ChangeReason, delta: int)
    requires ChangesMatch(db) && MovesFor(db, db', moved, reason) && AddsRow(db, db', moved, reason, delta)
    requires reason == InvoiceFunded || reason == InvoiceSettled || reason == ChargedBackInvoice
    requires delta == Signed(reason, db.invoices[moved].totalAmount)
    ensures ChangesMatch(db')
  {
    forall id: nat ensures ChangesOf(db'.credit.changeLog, id) == ExpectedOf(db', id) {
      ChangesAfterRow(db, db', moved, reason, delta, id);
    }
  }

  lemma ChangesAfterDelta(ks: KeyScheme, db: Db, c: Call, db': Db)
    requires CreditOk(ks, db) && ChangesMatch(db) && Attempt(ks, db, c) == Ok(db')
    requires c.event.Fund? || c.event.Settle? || c.event.ChargeBack?
    ensures ChangesMatch(db')
  {
    MoveOf(ks, db, c);
    var total := db.invoices[c.event.id].totalAmount;
    DeltaAddsRow(ks, db, c, db', total);
    ChangesAfterMove(db, db', c.event.id, ReasonOf(c.event), Signed(ReasonOf(c.event), total));
  }

  lemma ChangesElsewhere(db: Db, db': Db)
    requires ChangesMatch(db) && KeepsExposure(db, db') && Settlement.KeepsInvoices(db, db')
    requires db'.credit.changeLog == db.credit.changeLog
    ensures ChangesMatch(db')
  {
    forall id: nat ensures ChangesOf(db'.credit.changeLog, id) == ExpectedOf(db', id) {
      assert ChangesOf(db.credit.changeLog, id) == ExpectedOf(db, id);
      assert StatusOf(db', id) == Funded <==> StatusOf(db, id) == Funded;
      assert StatusOf(db', id) == Settled <==> StatusOf(db, id) == Settled;
      assert EverChargedBack(StatusOf(db', id)) <==> EverChargedBack(StatusOf(db, id));
    }
  }

  lemma ChangesAfterOther(ks: KeyScheme, db: Db, c: Call)
    requires ChangesMatch(db) && StartsWhereItSays(db, c.event) && Attempt(ks, db, c).Ok?
    requires !c.event.Fund? && !c.event.Settle? && !c.event.ChargeBack?
    ensures ChangesMatch(Attempt(ks, db, c).value)
  {
    CreditOfStep(ks, db, c);
    OtherStepKeepsExposure(ks, db, c);
    Settlement.StepKeepsInvoices(ks, db, c);
    ChangesElsewhere(db, Attempt(ks, db, c).value);
  }

  /** In every reachable state the change log tells each invoice's life: the full amount when it was funded, and the same
      amount back, with the reason, when it was settled or charged back, all for the invoice's own company. */
  lemma {:induction false} ChangesOfRun(ks: KeyScheme, calls: seq<Call>)
    requires Injective(ks) && Orderly(ks, calls)
    ensures ChangesMatch(After(ks, calls))
  {
    if calls != [] {
      var n := |calls| - 1;
      var db, c := After(ks, calls[..n]), calls[n];
      ChangesOfRun(ks, calls[..n]);
      OrderlyIsSparing(ks, calls[..n]);
      CreditOfRun(ks, calls[..n]);
      if Attempt(ks, db, c).Ok? {
        if c.event.Fund? || c.event.Settle? || c.event.ChargeBack? {
          ChangesAfterDelta(ks, db, c, Attempt(ks, db, c).value);
        } else {
          ChangesAfterOther(ks, db, c);
        }
      }
    }
  }
}
