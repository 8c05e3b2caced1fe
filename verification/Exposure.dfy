/** The cached credit counter is the sum of the funded invoices. */
module Exposure {
  import opened Wrappers
  import opened Sums
  import opened StateMachine
  import opened Credit
  import opened Keys
  import opened Schema
  import opened Engine
  import Invoices

  /** What an invoice counts against a company's limit: its full amount while it is funded. */
  function Exposed(mcId: nat): Invoice -> int {
    (inv: Invoice) => if inv.mcId == mcId && inv.status == Funded then inv.totalAmount else 0
  }

  function FundedTotal(invoices: seq<Invoice>, mcId: nat): int {
    Sum(invoices, Exposed(mcId))
  }

  ghost predicate CountersAgree(db: Db) {
    forall mcId: nat :: Used(db.credit, mcId) == FundedTotal(db.invoices, mcId)
  }

  ghost predicate FundedHaveLimits(db: Db) {
    forall i :: 0 <= i < |db.invoices| && db.invoices[i].status == Funded ==> db.invoices[i].mcId in db.credit.limits
  }

  /** The change log holds exactly the keys of the operations each invoice has been through. */
  ghost predicate CreditKeysOk(ks: KeyScheme, db: Db) {
    forall i: nat ::
      && (LogHasKey(db.credit.changeLog, ks(FundingCreditKey(i))) <==> EverFunded(StatusOf(db, i)))
      && (LogHasKey(db.credit.changeLog, ks(SettlementCreditKey(i))) <==> StatusOf(db, i) == Settled)
      && (LogHasKey(db.credit.changeLog, ks(ChargebackCreditKey(i))) <==> EverChargedBack(StatusOf(db, i)))
  }

  ghost predicate CreditOk(ks: KeyScheme, db: Db) {
    CountersAgree(db) && FundedHaveLimits(db) && CreditKeysOk(ks, db) && LogRebuildsCounters(db.credit)
  }

  lemma AppliedKeys(t: CreditTables, r: DeltaRequest, key: string)
    requires ApplyDelta(t, r).Ok?
    ensures LogHasKey(ApplyDelta(t, r).value.changeLog, key) <==> LogHasKey(t.changeLog, key) || key == r.key
  {
    var t' := ApplyDelta(t, r).value;
    if t' != t {
      assert t'.changeLog[|t.changeLog|].key == r.key;
      assert forall j :: 0 <= j < |t.changeLog| ==> t'.changeLog[j] == t.changeLog[j];
    }
  }

  /** Moving one invoice changes its own company's total by its own exposure. */
  lemma TotalAfterMove(invoices: seq<Invoice>, id: nat, inv: Invoice, mcId: nat)
    requires id < |invoices|
    ensures FundedTotal(invoices[id := inv], mcId)
         == FundedTotal(invoices, mcId) - Exposed(mcId)(invoices[id]) + Exposed(mcId)(inv)
  {
    SumUpdate(invoices, id, inv, Exposed(mcId));
  }

  lemma {:induction false} SameExposure(a: seq<Invoice>, b: seq<Invoice>, mcId: nat)
    requires |a| == |b|
    requires forall j :: 0 <= j < |a| ==> b[j] == a[j].(reserveHold := b[j].reserveHold)
    ensures FundedTotal(a, mcId) == FundedTotal(b, mcId)
  {
    if a != [] {
      SameExposure(a[..|a| - 1], b[..|b| - 1], mcId);
    }
  }

  /** The delta an invoice operation applies, if any. */
  function DeltaOf(ks: KeyScheme, db: Db, e: Event): Option<DeltaRequest> {
    match e
    case Fund(id, _) => if id < |db.invoices| then
        var inv := db.invoices[id];
        Some(DeltaRequest(inv.mcId, inv.totalAmount, InvoiceFunded, Some(id), ks(FundingCreditKey(id)))) else None
    case Settle(id) => if id < |db.invoices| then
        Some(Invoices.RestoreDelta(db.invoices[id], id, InvoiceSettled, ks(SettlementCreditKey(id)))) else None
    case ChargeBack(id, _) => if id < |db.invoices| then
        Some(Invoices.RestoreDelta(db.invoices[id], id, ChargedBackInvoice, ks(ChargebackCreditKey(id)))) else None
    case _ => None
  }

  /** A step either applies its delta, sets a limit, or leaves the credit tables alone. */
  lemma CreditOfStep(ks: KeyScheme, db: Db, c: Call)
    requires Attempt(ks, db, c).Ok?
    ensures var credit' := Attempt(ks, db, c).value.credit;
            if c.event.SetLimit? then credit' == Credit.SetLimit(db.credit, c.event.mcId, c.event.totalLimit)
            else match DeltaOf(ks, db, c.event)
                 case Some(r) => ApplyDelta(db.credit, r) == Ok(credit')
                 case None => credit' == db.credit
  {
    if c.event.Fund? || c.event.Settle? || c.event.ChargeBack? {
      CreditOfMoneyMove(ks, db, c);
    } else if !c.event.SetLimit? {
      CreditUntouched(ks, db, c);
    }
  }

  lemma CreditOfMoneyMove(ks: KeyScheme, db: Db, c: Call)
    requires Attempt(ks, db, c).Ok? && (c.event.Fund? || c.event.Settle? || c.event.ChargeBack?)
    ensures DeltaOf(ks, db, c.event).Some?
    ensures ApplyDelta(db.credit, DeltaOf(ks, db, c.event).value) == Ok(Attempt(ks, db, c).value.credit)
  {
  }

  lemma CreditUntouched(ks: KeyScheme, db: Db, c: Call)
    requires Attempt(ks, db, c).Ok?
    requires !c.event.Fund? && !c.event.Settle? && !c.event.ChargeBack? && !c.event.SetLimit?
    ensures Attempt(ks, db, c).value.credit == db.credit
  {
    if IsMove(c.event) || c.event.Create? {
      CreditOfHandler(ks, db, c);
    } else {
      CreditOfRest(ks, db, c);
    }
  }

  lemma CreditOfHandler(ks: KeyScheme, db: Db, c: Call)
    requires Attempt(ks, db, c).Ok?
    requires c.event.Create? || c.event.Handle? || c.event.RaiseDispute? || c.event.ResolveDispute? || c.event.Cancel? || c.event.WriteOff?
    ensures Attempt(ks, db, c).value.credit == db.credit
  {
  }

  lemma CreditOfRest(ks: KeyScheme, db: Db, c: Call)
    requires Attempt(ks, db, c).Ok? && !IsMove(c.event) && !c.event.Create? && !c.event.SetLimit?
    ensures Attempt(ks, db, c).value.credit == db.credit
  {
  }

  /** The key an invoice operation logs its delta under is one the invoice has not used. */
  function CreditKeyInto(id: nat, to: Status): KeyName {
    match to
    case Funded => FundingCreditKey(id)
    case Settled => SettlementCreditKey(id)
    case _ => ChargebackCreditKey(id)
  }

  function ExposureChange(from: Status, to: Status, amount: nat): int {
    (if to == Funded then amount else 0) - (if from == Funded then amount else 0)
  }

  /** A move into FUNDED, SETTLED or CHARGED_BACK that applies the matching delta under its own key. */
  ghost predicate MovesExposure(ks: KeyScheme, db: Db, db': Db, id: nat, edge: Edge, now: int, r: DeltaRequest) {
    && Moves(db, db', id, edge.from, edge.to, now)
    && (edge.to == Funded || edge.to == Settled || edge.to == ChargedBack)
    && ApplyDelta(db.credit, r) == Ok(db'.credit)
    && r.mcId == db.invoices[id].mcId
    && r.delta == ExposureChange(edge.from, edge.to, db.invoices[id].totalAmount)
    && r.key == ks(CreditKeyInto(id, edge.to))
  }

  lemma KeyIsNew(ks: KeyScheme, db: Db, db': Db, id: nat, edge: Edge, now: int, r: DeltaRequest)
    requires CreditKeysOk(ks, db) && MovesExposure(ks, db, db', id, edge, now, r)
    ensures !LogHasKey(db.credit.changeLog, r.key)
  {
  }

  lemma CountersAfterMove(ks: KeyScheme, db: Db, db': Db, id: nat, edge: Edge, now: int, r: DeltaRequest)
    requires CountersAgree(db) && FundedHaveLimits(db) && CreditKeysOk(ks, db)
    requires MovesExposure(ks, db, db', id, edge, now, r)
    ensures CountersAgree(db') && FundedHaveLimits(db')
  {
    KeyIsNew(ks, db, db', id, edge, now, r);
    forall mcId: nat ensures Used(db'.credit, mcId) == FundedTotal(db'.invoices, mcId) {
      TotalAfterMove(db.invoices, id, db'.invoices[id], mcId);
      assert Used(db'.credit, mcId) == Used(db.credit, mcId) + (if mcId == r.mcId then r.delta else 0);
    }
  }

  lemma KeysAfterMove(ks: KeyScheme, db: Db, db': Db, id: nat, edge: Edge, now: int, r: DeltaRequest)
    requires Injective(ks) && CreditKeysOk(ks, db)
    requires MovesExposure(ks, db, db', id, edge, now, r)
    ensures CreditKeysOk(ks, db')
  {
    forall i: nat
      ensures LogHasKey(db'.credit.changeLog, ks(FundingCreditKey(i))) <==> EverFunded(StatusOf(db', i))
      ensures LogHasKey(db'.credit.changeLog, ks(SettlementCreditKey(i))) <==> StatusOf(db', i) == Settled
      ensures LogHasKey(db'.credit.changeLog, ks(ChargebackCreditKey(i))) <==> EverChargedBack(StatusOf(db', i))
    {
      KeysOfInvoice(ks, db, db', id, edge, now, r, i);
    }
  }

  lemma KeysOfInvoice(ks: KeyScheme, db: Db, db': Db, id: nat, edge: Edge, now: int, r: DeltaRequest, i: nat)
    requires Injective(ks) && CreditKeysOk(ks, db)
    requires MovesExposure(ks, db, db', id, edge, now, r)
    ensures LogHasKey(db'.credit.changeLog, ks(FundingCreditKey(i))) <==> EverFunded(StatusOf(db', i))
    ensures LogHasKey(db'.credit.changeLog, ks(SettlementCreditKey(i))) <==> StatusOf(db', i) == Settled
    ensures LogHasKey(db'.credit.changeLog, ks(ChargebackCreditKey(i))) <==> EverChargedBack(StatusOf(db', i))
  {
    NewCreditKeys(ks, db.credit, db'.credit, r, CreditKeyInto(id, edge.to), i);
    StatusMoved(db, db', id, edge, now, i);
    StatusesOfKeys(edge);
    assert LogHasKey(db.credit.changeLog, ks(FundingCreditKey(i))) <==> EverFunded(StatusOf(db, i));
  }

  /** What the statuses of a move into FUNDED, SETTLED or CHARGED_BACK say about keys, before it and after it. */
  lemma StatusesOfKeys(edge: Edge)
    requires IsLegal(edge.from, edge.to) && (edge.to == Funded || edge.to == Settled || edge.to == ChargedBack)
    ensures EverFunded(edge.to) && (edge.to == Funded <==> !EverFunded(edge.from))
    ensures edge.from != Settled && !EverChargedBack(edge.from)
    ensures EverChargedBack(edge.to) <==> edge.to == ChargedBack
  {
  }

  lemma NewCreditKeys(ks: KeyScheme, t: CreditTables, t': CreditTables, r: DeltaRequest, written: KeyName, i: nat)
    requires Injective(ks) && ApplyDelta(t, r) == Ok(t') && r.key == ks(written)
    ensures LogHasKey(t'.changeLog, ks(FundingCreditKey(i))) <==>
            LogHasKey(t.changeLog, ks(FundingCreditKey(i))) || written == FundingCreditKey(i)
    ensures LogHasKey(t'.changeLog, ks(SettlementCreditKey(i))) <==>
            LogHasKey(t.changeLog, ks(SettlementCreditKey(i))) || written == SettlementCreditKey(i)
    ensures LogHasKey(t'.changeLog, ks(ChargebackCreditKey(i))) <==>
            LogHasKey(t.changeLog, ks(ChargebackCreditKey(i))) || written == ChargebackCreditKey(i)
  {
    NewCreditKey(ks, t, t', r, written, FundingCreditKey(i));
    NewCreditKey(ks, t, t', r, written, SettlementCreditKey(i));
    NewCreditKey(ks, t, t', r, written, ChargebackCreditKey(i));
  }

  lemma NewCreditKey(ks: KeyScheme, t: CreditTables, t': CreditTables, r: DeltaRequest, written: KeyName, asked: KeyName)
    requires Injective(ks) && ApplyDelta(t, r) == Ok(t') && r.key == ks(written)
    ensures LogHasKey(t'.changeLog, ks(asked)) <==> LogHasKey(t.changeLog, ks(asked)) || asked == written
  {
    AppliedKeys(t, r, ks(asked));
  }

  lemma StatusMoved(db: Db, db': Db, id: nat, edge: Edge, now: int, i: nat)
    requires Moves(db, db', id, edge.from, edge.to, now)
    ensures StatusOf(db', i) == (if i == id then edge.to else StatusOf(db, i)) && StatusOf(db, id) == edge.from
  {
  }

  lemma DeltaStepMovesExposure(ks: KeyScheme, db: Db, c: Call)
    requires Attempt(ks, db, c).Ok? && DeltaOf(ks, db, c.event).Some?
    ensures MovesExposure(ks, db, Attempt(ks, db, c).value, c.event.id, EdgeOf(db, c.event), c.now,
                          DeltaOf(ks, db, c.event).value)
  {
    ShapeOfStep(ks, db, c);
    CreditOfStep(ks, db, c);
  }

  lemma CreditAfterDelta(ks: KeyScheme, db: Db, c: Call)
    requires Injective(ks) && CreditOk(ks, db)
    requires Attempt(ks, db, c).Ok? && DeltaOf(ks, db, c.event).Some?
    ensures CreditOk(ks, Next(ks, db, c))
  {
    var db', id, edge, r := Next(ks, db, c), c.event.id, EdgeOf(db, c.event), DeltaOf(ks, db, c.event).value;
    DeltaStepMovesExposure(ks, db, c);
    CountersAfterMove(ks, db, db', id, edge, c.now, r);
    KeysAfterMove(ks, db, db', id, edge, c.now, r);
    ApplyDeltaKeepsLog(db.credit, r);
  }

  /** A step that leaves the credit tables alone and moves no exposure. */
  ghost predicate KeepsExposure(db: Db, db': Db) {
    && (forall mcId: nat :: FundedTotal(db'.invoices, mcId) == FundedTotal(db.invoices, mcId))
    && (forall i: nat :: StatusOf(db', i) == Funded <==> StatusOf(db, i) == Funded)
    && (forall i: nat :: StatusOf(db', i) == Settled <==> StatusOf(db, i) == Settled)
    && (forall i: nat :: EverChargedBack(StatusOf(db', i)) <==> EverChargedBack(StatusOf(db, i)))
    && (forall i :: 0 <= i < |db.invoices| <= |db'.invoices| ==> db'.invoices[i].mcId == db.invoices[i].mcId)
    && |db.invoices| <= |db'.invoices|
  }

  lemma QuietMove(db: Db, db': Db, id: nat, from: Status, to: Status, now: int)
    requires Moves(db, db', id, from, to, now)
    requires to != Funded && to != Settled && to != ChargedBack
    ensures KeepsExposure(db, db')
  {
    forall mcId: nat ensures FundedTotal(db'.invoices, mcId) == FundedTotal(db.invoices, mcId) {
      TotalAfterMove(db.invoices, id, db'.invoices[id], mcId);
    }
    forall i: nat ensures StatusOf(db', i) == (if i == id then to else StatusOf(db, i)) {
    }
  }

  lemma QuietUpload(db: Db, db': Db, now: int)
    requires Uploads(db, db', now)
    ensures KeepsExposure(db, db')
  {
    var n := |db.invoices|;
    assert db'.invoices == db.invoices + [db'.invoices[n]];
    forall mcId: nat ensures FundedTotal(db'.invoices, mcId) == FundedTotal(db.invoices, mcId) {
      SumAppend(db.invoices, db'.invoices[n], Exposed(mcId));
    }
    forall i: nat ensures StatusOf(db', i) == (if i == n then Uploaded else StatusOf(db, i)) {
    }
  }

  lemma QuietStay(db: Db, db': Db)
    requires StaysPut(db, db')
    ensures KeepsExposure(db, db')
  {
    forall mcId: nat ensures FundedTotal(db'.invoices, mcId) == FundedTotal(db.invoices, mcId) {
      SameExposure(db.invoices, db'.invoices, mcId);
    }
    forall i: nat ensures StatusOf(db', i) == StatusOf(db, i) {
    }
  }

  /** An invoice that was never funded changes to a status that does not say so either. */
  lemma QuietChange(db: Db, db': Db, id: nat, to: Status)
    requires id < |db.invoices| && db'.invoices == db.invoices[id := db.invoices[id].(status := to)]
    requires !EverFunded(db.invoices[id].status) && !EverFunded(to)
    ensures KeepsExposure(db, db')
  {
    forall mcId: nat ensures FundedTotal(db'.invoices, mcId) == FundedTotal(db.invoices, mcId) {
      TotalAfterMove(db.invoices, id, db'.invoices[id], mcId);
    }
    forall i: nat ensures StatusOf(db', i) == (if i == id then to else StatusOf(db, i)) {
    }
  }

  predicate NamesItsStart(e: Event) {
    e.Handle? || e.RaiseDispute? || e.ResolveDispute?
  }

  /** Where a handler that names its statuses leaves the invoice, wherever it was. */
  lemma HandlerChanges(ks: KeyScheme, db: Db, c: Call)
    requires NamesItsStart(c.event) && Attempt(ks, db, c).Ok?
    ensures var id, to := c.event.id, EdgeOf(db, c.event).to;
            && !EverFunded(to) && id < |db.invoices|
            && Attempt(ks, db, c).value.invoices == db.invoices[id := db.invoices[id].(status := to)]
  {
  }

  lemma OtherStepKeepsExposure(ks: KeyScheme, db: Db, c: Call)
    requires SparesFunded(db, c.event)
    requires Attempt(ks, db, c).Ok? && DeltaOf(ks, db, c.event).None?
    ensures KeepsExposure(db, Attempt(ks, db, c).value)
  {
    var db' := Attempt(ks, db, c).value;
    if NamesItsStart(c.event) {
      HandlerChanges(ks, db, c);
      QuietChange(db, db', c.event.id, EdgeOf(db, c.event).to);
    } else {
      ShapeOfStep(ks, db, c);
      if IsMove(c.event) {
        QuietMove(db, db', c.event.id, EdgeOf(db, c.event).from, EdgeOf(db, c.event).to, c.now);
      } else if c.event.Create? {
        QuietUpload(db, db', c.now);
      } else {
        QuietStay(db, db');
      }
    }
  }

  lemma CreditWithoutDelta(ks: KeyScheme, db: Db, db': Db)
    requires CreditOk(ks, db) && KeepsExposure(db, db')
    requires forall mcId: nat :: Used(db'.credit, mcId) == Used(db.credit, mcId)
    requires db.credit.limits.Keys <= db'.credit.limits.Keys && db'.credit.changeLog == db.credit.changeLog
    requires LogRebuildsCounters(db'.credit)
    ensures CreditOk(ks, db')
  {
    forall i | 0 <= i < |db'.invoices| && db'.invoices[i].status == Funded
      ensures db'.invoices[i].mcId in db'.credit.limits
    {
      assert StatusOf(db', i) == Funded;
      assert StatusOf(db, i) == Funded;
    }
  }

  lemma CreditAfterOther(ks: KeyScheme, db: Db, c: Call)
    requires CreditOk(ks, db) && SparesFunded(db, c.event)
    requires Attempt(ks, db, c).Ok? && DeltaOf(ks, db, c.event).None?
    ensures CreditOk(ks, Next(ks, db, c))
  {
    var db' := Next(ks, db, c);
    OtherStepKeepsExposure(ks, db, c);
    CreditOfStep(ks, db, c);
    if c.event.SetLimit? {
      SetLimitKeepsLog(db.credit, c.event.mcId, c.event.totalLimit);
    }
    CreditWithoutDelta(ks, db, db');
  }

  lemma CreditAfterStep(ks: KeyScheme, db: Db, c: Call)
    requires Injective(ks) && CreditOk(ks, db) && SparesFunded(db, c.event)
    ensures CreditOk(ks, Next(ks, db, c))
  {
    if Attempt(ks, db, c).Ok? {
      if DeltaOf(ks, db, c.event).Some? {
        CreditAfterDelta(ks, db, c);
      } else {
        CreditAfterOther(ks, db, c);
      }
    }
  }

  lemma NothingOwed(ks: KeyScheme)
    ensures CreditOk(ks, EMPTY)
  {
    assert forall mcId: nat :: Filter<ChangeRow>([], OfCompany(mcId)) == [];
  }

  /** The counters agree after every run, even one whose handlers are called in statuses they do not name, as long as the
      invoices they are called on have never been funded. */
  lemma {:induction false} CreditOfRun(ks: KeyScheme, calls: seq<Call>)
    requires Injective(ks) && Sparing(ks, calls)
    ensures CreditOk(ks, After(ks, calls))
  {
    if calls != [] {
      var n := |calls| - 1;
      var db := After(ks, calls[..n]);
      CreditOfRun(ks, calls[..n]);
      CreditAfterStep(ks, db, calls[n]);
    } else {
      NothingOwed(ks);
    }
  }

  /** After any run, each company's counter is the sum of its funded invoices and of its logged deltas; so it is never
      negative, and every funded invoice's company has a limit. */
  lemma CounterAgreesWithInvoices(ks: KeyScheme, calls: seq<Call>, mcId: nat)
    requires Injective(ks) && Sparing(ks, calls)
    ensures var db := After(ks, calls);
            && Used(db.credit, mcId) == FundedTotal(db.invoices, mcId) >= 0
            && Used(db.credit, mcId) == Sum(Filter(db.credit.changeLog, OfCompany(mcId)), Delta())
            && (mcId !in db.credit.limits ==> forall i :: 0 <= i < |db.invoices| && db.invoices[i].status == Funded ==>
                                                            db.invoices[i].mcId != mcId)
  {
    var db := After(ks, calls);
    CreditOfRun(ks, calls);
    SumNonNegative(db.invoices, Exposed(mcId));
    ChainedSum(Filter(db.credit.changeLog, OfCompany(mcId)), Used(db.credit, mcId));
  }

  /** A status change to a status before funding, wherever the invoice is: the credit tables stay right, keys included, if
      and only if the invoice has never been funded. The counters disagree at once if and only if it is FUNDED and its
      amount is not zero. */
  lemma MisplacedHandler(ks: KeyScheme, db: Db, id: nat, from: Status, to: Status, now: int)
    requires CreditOk(ks, db) && id < |db.invoices| && IsLegal(from, to) && !EverFunded(to)
    ensures Invoices.ChangeStatus(db, id, from, to, now).Ok?
    ensures CreditOk(ks, Invoices.ChangeStatus(db, id, from, to, now).value) <==> !EverFunded(db.invoices[id].status)
    ensures CountersAgree(Invoices.ChangeStatus(db, id, from, to, now).value) <==>
            db.invoices[id].status != Funded || db.invoices[id].totalAmount == 0
  {
    var db' := Invoices.ChangeStatus(db, id, from, to, now).value;
    assert LogHasKey(db.credit.changeLog, ks(FundingCreditKey(id))) <==> EverFunded(StatusOf(db, id));
    if EverFunded(db.invoices[id].status) {
      assert StatusOf(db', id) == to;
      assert !CreditKeysOk(ks, db');
    } else {
      QuietChange(db, db', id, to);
      CreditWithoutDelta(ks, db, db');
    }
    CountersAfterChange(db, id, from, to, now);
  }

  lemma CountersAfterChange(db: Db, id: nat, from: Status, to: Status, now: int)
    requires CountersAgree(db) && id < |db.invoices| && IsLegal(from, to) && to != Funded
    ensures CountersAgree(Invoices.ChangeStatus(db, id, from, to, now).value) <==>
            db.invoices[id].status != Funded || db.invoices[id].totalAmount == 0
  {
    var db', inv := Invoices.ChangeStatus(db, id, from, to, now).value, db.invoices[id];
    forall mcId: nat
      ensures Used(db'.credit, mcId) - FundedTotal(db'.invoices, mcId)
           == (if inv.mcId == mcId && inv.status == Funded then inv.totalAmount else 0)
    {
      assert Used(db.credit, mcId) == FundedTotal(db.invoices, mcId);
      TotalAfterMove(db.invoices, id, inv.(status := to), mcId);
    }
    if CountersAgree(db') {
      assert Used(db'.credit, inv.mcId) == FundedTotal(db'.invoices, inv.mcId);
    }
  }

  /** A resolved invoice that is taken back to a status before funding and then approved and funded once more: its delta
      is taken for a retry, and the counter stays short of the funded total by its amount. */
  lemma FundedAgainDrifts(ks: KeyScheme, db: Db, id: nat, advancePct: int, now: int)
    requires CreditOk(ks, db) && id < |db.invoices| && IsResolved(db.invoices[id].status)
    requires LimitCheck(db.credit, db.invoices[id].mcId, db.invoices[id].totalAmount).None?
    ensures var approved := Next(ks, db, Call(Handle(id, Invoices.UnderwriteApprove, true), now));
            var inv, db' := db.invoices[id], Next(ks, approved, Call(Fund(id, advancePct), now));
            && StatusOf(approved, id) == ApprovedForFunding && CountersAgree(approved)
            && StatusOf(db', id) == Funded
            && FundedTotal(db'.invoices, inv.mcId) - Used(db'.credit, inv.mcId) == inv.totalAmount
  {
    var inv, handle := db.invoices[id], Call(Handle(id, Invoices.UnderwriteApprove, true), now);
    var approved := Next(ks, db, handle);
    HandlerChanges(ks, db, handle);
    forall mcId: nat ensures Used(approved.credit, mcId) == FundedTotal(approved.invoices, mcId) {
      TotalAfterMove(db.invoices, id, approved.invoices[id], mcId);
      assert Used(db.credit, mcId) == FundedTotal(db.invoices, mcId);
    }
    assert LogHasKey(db.credit.changeLog, ks(FundingCreditKey(id))) <==> EverFunded(StatusOf(db, id));
    FundedUnderUsedKey(ks, approved, id, advancePct, now);
  }

  /** A funding under a used key moves the invoice and not the counter. */
  lemma FundedUnderUsedKey(ks: KeyScheme, db: Db, id: nat, advancePct: int, now: int)
    requires id < |db.invoices| && db.invoices[id].status == ApprovedForFunding
    requires LogHasKey(db.credit.changeLog, ks(FundingCreditKey(id)))
    requires LimitCheck(db.credit, db.invoices[id].mcId, db.invoices[id].totalAmount).None?
    ensures var inv, db' := db.invoices[id], Next(ks, db, Call(Fund(id, advancePct), now));
            && StatusOf(db', id) == Funded && db'.credit == db.credit
            && FundedTotal(db'.invoices, inv.mcId) == FundedTotal(db.invoices, inv.mcId) + inv.totalAmount
  {
    var db' := Next(ks, db, Call(Fund(id, advancePct), now));
    assert db'.invoices == db.invoices[id := db'.invoices[id]];
    TotalAfterMove(db.invoices, id, db'.invoices[id], db.invoices[id].mcId);
  }

  lemma FundedAreAccepted(ks: KeyScheme, db: Db, c: Call)
    requires FundedHaveLimits(db)
    ensures c.event.Fund? && Invoices.FundGuard(db, c.event.id, c.event.advancePct).Ok? ==> Attempt(ks, db, c).Ok?
    ensures c.event.Settle? || c.event.ChargeBack? ==> Attempt(ks, db, c) != Err(LimitNotConfigured)
  {
  }

  /** The services never ask for a delta on a company without a limit row: a funding that passes its checks goes through,
      and no settlement or chargeback is refused for want of one. */
  lemma DeltasAreAccepted(ks: KeyScheme, calls: seq<Call>, c: Call)
    requires Injective(ks) && Sparing(ks, calls)
    ensures var db := After(ks, calls);
            && (c.event.Fund? && Invoices.FundGuard(db, c.event.id, c.event.advancePct).Ok? ==> Attempt(ks, db, c).Ok?)
            && (c.event.Settle? || c.event.ChargeBack? ==> Attempt(ks, db, c) != Err(LimitNotConfigured))
  {
    CreditOfRun(ks, calls);
    FundedAreAccepted(ks, After(ks, calls), c);
  }
}
