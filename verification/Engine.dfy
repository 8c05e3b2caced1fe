/** The whole system as one sequential machine: every operation is one step on the tables. */
module Engine {
  import opened Wrappers
  import opened Sums
  import opened StateMachine
  import opened Credit
  import opened Ledger
  import opened FeeCalculator
  import opened Keys
  import opened Schema
  import Invoices
  import Fees

  datatype Event =
    | Create(brokerId: nat, mcId: nat, invoiceNumber: string, totalAmount: nat, gallons: nat, transactable: bool)
    | Handle(id: nat, handler: Invoices.Handler, ready: bool)
    | RaiseDispute(id: nat)
    | ResolveDispute(id: nat, reinstate: bool)
    | Fund(id: nat, advancePct: int)
    | Settle(id: nat)
    | Cancel(id: nat)
    | PlaceReserveHold(id: nat)
    | ReleaseReserveHold(id: nat)
    | ChargeBack(id: nat, amount: nat)
    | WriteOff(id: nat)
    | SetLimit(mcId: nat, totalLimit: nat)
    | RecordPayment(mcId: nat, amount: nat, known: bool)
    | MatchPayment(paymentId: nat, invoiceId: nat, amount: nat)
    | RunFees(brokerId: nat, date: int)
    | MarkIssued(brokerId: nat, month: int)
    | CreateTier(gallonsFrom: nat, gallonsTo: Option<nat>, feePct: nat)
    | DeactivateTier(tierId: nat)
    | SetMinimumFee(minimumMonthlyFee: nat)

  /** An operation and the clock when it runs. */
  datatype Call = Call(event: Event, now: int)

  function FundKeysFor(ks: KeyScheme, id: nat): FundKeys {
    FundKeys(ks(DisbursementKey(id)), ks(ReserveHoldKey(id)), ks(FundingCreditKey(id)))
  }

  function SettleKeysFor(ks: KeyScheme, id: nat): KeyPair {
    KeyPair(ks(ReserveReleaseKey(id)), ks(SettlementCreditKey(id)))
  }

  function ChargebackKeysFor(ks: KeyScheme, id: nat): KeyPair {
    KeyPair(ks(ChargebackKey(id)), ks(ChargebackCreditKey(id)))
  }

  function Attempt(ks: KeyScheme, db: Db, c: Call): Result<Db> {
    match c.event
    case Create(brokerId, mcId, invoiceNumber, totalAmount, gallons, transactable) =>
      Invoices.Create(db, brokerId, mcId, invoiceNumber, totalAmount, gallons, transactable, c.now)
    case Handle(id, handler, ready) => Invoices.RunHandler(db, id, handler, ready, c.now)
    case RaiseDispute(id) => Invoices.RaiseDispute(db, id, c.now)
    case ResolveDispute(id, reinstate) => Invoices.ResolveDispute(db, id, reinstate, c.now)
    case Fund(id, advancePct) => Invoices.Fund(db, id, advancePct, FundKeysFor(ks, id), c.now)
    case Settle(id) => Invoices.Settle(db, id, SettleKeysFor(ks, id), c.now)
    case Cancel(id) => Invoices.Cancel(db, id, c.now)
    case PlaceReserveHold(id) => Invoices.PlaceReserveHold(db, id)
    case ReleaseReserveHold(id) => Invoices.ReleaseReserveHold(db, id)
    case ChargeBack(id, amount) => Invoices.ChargeBack(db, id, amount, ChargebackKeysFor(ks, id), c.now)
    case WriteOff(id) => Invoices.WriteOff(db, id, ks(WriteOffKey(id)), c.now)
    case SetLimit(mcId, totalLimit) => Ok(db.(credit := Credit.SetLimit(db.credit, mcId, totalLimit)))
    case RecordPayment(mcId, amount, known) =>
      Invoices.RecordPayment(db, mcId, amount, known, ks(ReceiptKey(|db.payments|)))
    case MatchPayment(paymentId, invoiceId, amount) => Invoices.MatchPayment(db, paymentId, invoiceId, amount)
    case RunFees(brokerId, date) => Fees.RunForBrokerPeriod(ks, db, brokerId, date)
    case MarkIssued(brokerId, month) => Fees.MarkIssued(db, brokerId, month)
    case CreateTier(gallonsFrom, gallonsTo, feePct) => Ok(Fees.CreateTier(db, gallonsFrom, gallonsTo, feePct))
    case DeactivateTier(tierId) => Fees.DeactivateTier(db, tierId)
    case SetMinimumFee(minimumMonthlyFee) => Ok(Fees.SetMinimumFee(db, minimumMonthlyFee, c.now))
  }

  /** An operation that throws leaves the tables as they were. */
  function Next(ks: KeyScheme, db: Db, c: Call): Db {
    match Attempt(ks, db, c)
    case Ok(db') => db'
    case Err(_) => db
  }

  function After(ks: KeyScheme, calls: seq<Call>): Db {
    if calls == [] then EMPTY else Next(ks, After(ks, calls[..|calls| - 1]), calls[|calls| - 1])
  }

  function StatusOf(db: Db, id: nat): Status {
    if id < |db.invoices| then db.invoices[id].status else Draft
  }

  /** Handlers whose code names the status they leave are called on invoices in that status only. */
  predicate StartsWhereItSays(db: Db, e: Event) {
    match e
    case Handle(id, handler, _) => StatusOf(db, id) == Invoices.FromOf(handler) || id >= |db.invoices|
    case RaiseDispute(id) => StatusOf(db, id) == PendingMcApproval || id >= |db.invoices|
    case ResolveDispute(id, _) => StatusOf(db, id) == McDisputed || id >= |db.invoices|
    case _ => true
  }

  /** A run whose calls all respect StartsWhereItSays. */
  ghost predicate Orderly(ks: KeyScheme, calls: seq<Call>) {
    calls == [] ||
    var n := |calls| - 1;
    Orderly(ks, calls[..n]) && StartsWhereItSays(After(ks, calls[..n]), calls[n].event)
  }

  /** The same handlers, when they are called on invoices that have never been funded, in whatever status. */
  predicate SparesFunded(db: Db, e: Event) {
    match e
    case Handle(id, _, _) => !EverFunded(StatusOf(db, id))
    case RaiseDispute(id) => !EverFunded(StatusOf(db, id))
    case ResolveDispute(id, _) => !EverFunded(StatusOf(db, id))
    case _ => true
  }

  /** A run whose calls all respect SparesFunded. */
  ghost predicate Sparing(ks: KeyScheme, calls: seq<Call>) {
    calls == [] ||
    var n := |calls| - 1;
    Sparing(ks, calls[..n]) && SparesFunded(After(ks, calls[..n]), calls[n].event)
  }

  lemma NamedStartSpares(db: Db, e: Event)
    requires StartsWhereItSays(db, e)
    ensures SparesFunded(db, e)
  {
  }

  lemma {:induction false} OrderlyIsSparing(ks: KeyScheme, calls: seq<Call>)
    requires Orderly(ks, calls)
    ensures Sparing(ks, calls)
  {
    if calls != [] {
      var n := |calls| - 1;
      OrderlyIsSparing(ks, calls[..n]);
      NamedStartSpares(After(ks, calls[..n]), calls[n].event);
    }
  }

  // ---- What a step does to invoices and history

  /** Invoice id goes from one status to another and gets a history row; nothing else about invoices changes except
      its funding terms. */
  ghost predicate Moves(db: Db, db': Db, id: nat, from: Status, to: Status, now: int) {
    && id < |db.invoices| == |db'.invoices|
    && db.invoices[id].status == from && IsLegal(from, to)
    && db'.history == db.history + [StatusRow(id, from, to, now)]
    && db'.invoices == db.invoices[id := db'.invoices[id]]
    && db'.invoices[id] == db.invoices[id].(status := to, advanceAmount := db'.invoices[id].advanceAmount,
                                            reserveAmount := db'.invoices[id].reserveAmount)
  }

  ghost predicate SameTerms(db: Db, db': Db, id: nat)
    requires id < |db.invoices| == |db'.invoices|
  {
    && db'.invoices[id].advanceAmount == db.invoices[id].advanceAmount
    && db'.invoices[id].reserveAmount == db.invoices[id].reserveAmount
  }

  /** No status and no history changes; at most a hold flag does. */
  ghost predicate StaysPut(db: Db, db': Db) {
    && db'.history == db.history
    && |db'.invoices| == |db.invoices|
    && forall j :: 0 <= j < |db.invoices| ==> db'.invoices[j] == db.invoices[j].(reserveHold := db'.invoices[j].reserveHold)
  }

  /** A new invoice appears, uploaded, at the end. */
  ghost predicate Uploads(db: Db, db': Db, now: int) {
    var id := |db.invoices|;
    && |db'.invoices| == id + 1 && db'.invoices[..id] == db.invoices
    && db'.history == db.history + [StatusRow(id, Draft, Uploaded, now)]
    && db'.invoices[id].id == id && db'.invoices[id].status == Uploaded && !db'.invoices[id].reserveHold
  }

  /** The statuses an event moves its invoice between. */
  function EdgeOf(db: Db, e: Event): Edge {
    match e
    case Handle(_, handler, _) => Edge(Invoices.FromOf(handler), Invoices.ToOf(handler))
    case RaiseDispute(_) => Edge(PendingMcApproval, McDisputed)
    case ResolveDispute(_, reinstate) => Edge(McDisputed, if reinstate then PendingMcApproval else Cancelled)
    case Fund(_, _) => Edge(ApprovedForFunding, Funded)
    case Settle(_) => Edge(Funded, Settled)
    case Cancel(id) => Edge(StatusOf(db, id), Cancelled)
    case ChargeBack(_, _) => Edge(Funded, ChargedBack)
    case WriteOff(_) => Edge(ChargedBack, WrittenOff)
    case _ => Edge(Draft, Draft)
  }

  predicate IsMove(e: Event) {
    e.Handle? || e.RaiseDispute? || e.ResolveDispute? || e.Fund? || e.Settle? || e.Cancel? || e.ChargeBack? || e.WriteOff?
  }

  ghost predicate HasShape(db: Db, db': Db, e: Event, now: int) {
    && (IsMove(e) ==> Moves(db, db', e.id, EdgeOf(db, e).from, EdgeOf(db, e).to, now))
    && (e.Create? ==> Uploads(db, db', now))
    && (!IsMove(e) && !e.Create? ==> StaysPut(db, db'))
    && (IsMove(e) && !e.Fund? ==> SameTerms(db, db', e.id))
  }

  lemma ShapeOfStep(ks: KeyScheme, db: Db, c: Call)
    requires StartsWhereItSays(db, c.event) && Attempt(ks, db, c).Ok?
    ensures HasShape(db, Attempt(ks, db, c).value, c.event, c.now)
  {
    if c.event.Fund? || c.event.Settle? || c.event.ChargeBack? || c.event.WriteOff? {
      ShapeOfMoneyMove(ks, db, c);
    } else if c.event.RunFees? {
      ShapeOfRun(ks, db, c);
    } else {
      ShapeOfOther(ks, db, c);
    }
  }

  lemma ShapeOfRun(ks: KeyScheme, db: Db, c: Call)
    requires Attempt(ks, db, c).Ok? && c.event.RunFees?
    ensures HasShape(db, Attempt(ks, db, c).value, c.event, c.now)
  {
  }

  lemma ShapeOfMoneyMove(ks: KeyScheme, db: Db, c: Call)
    requires Attempt(ks, db, c).Ok?
    requires c.event.Fund? || c.event.Settle? || c.event.ChargeBack? || c.event.WriteOff?
    ensures HasShape(db, Attempt(ks, db, c).value, c.event, c.now)
  {
    var db', id := Attempt(ks, db, c).value, c.event.id;
    assert db'.invoices == db.invoices[id := db'.invoices[id]];
  }

  lemma ShapeOfOther(ks: KeyScheme, db: Db, c: Call)
    requires StartsWhereItSays(db, c.event) && Attempt(ks, db, c).Ok?
    requires !c.event.Fund? && !c.event.Settle? && !c.event.ChargeBack? && !c.event.WriteOff? && !c.event.RunFees?
    ensures HasShape(db, Attempt(ks, db, c).value, c.event, c.now)
  {
    if IsMove(c.event) {
      ShapeOfHandler(ks, db, c);
    } else {
      ShapeOfRest(ks, db, c);
    }
  }

  lemma ShapeOfHandler(ks: KeyScheme, db: Db, c: Call)
    requires StartsWhereItSays(db, c.event) && Attempt(ks, db, c).Ok?
    requires c.event.Handle? || c.event.RaiseDispute? || c.event.ResolveDispute? || c.event.Cancel?
    ensures HasShape(db, Attempt(ks, db, c).value, c.event, c.now)
  {
  }

  lemma ShapeOfRest(ks: KeyScheme, db: Db, c: Call)
    requires Attempt(ks, db, c).Ok? && !IsMove(c.event) && !c.event.RunFees?
    ensures HasShape(db, Attempt(ks, db, c).value, c.event, c.now)
  {
  }

  /** The tables each kind of event can touch besides invoices, history, credit and ledger. */
  ghost predicate Frames(db: Db, db': Db, e: Event) {
    && (!e.PlaceReserveHold? && !e.ReleaseReserveHold? ==> db'.holds == db.holds)
    && (!e.RaiseDispute? && !e.ResolveDispute? ==> db'.disputes == db.disputes)
    && (!e.ChargeBack? && !e.WriteOff? ==> db'.chargebacks == db.chargebacks)
    && (!e.MatchPayment? ==> db'.matches == db.matches)
    && (!e.RecordPayment? && !e.MatchPayment? ==> db'.payments == db.payments)
    && (!e.RunFees? ==> db'.accruals == db.accruals)
    && (!e.RunFees? && !e.MarkIssued? ==> db'.feeInvoices == db.feeInvoices)
    && (!IsMove(e) && !e.Create? && !e.PlaceReserveHold? && !e.ReleaseReserveHold? ==> db'.invoices == db.invoices)
  }

  lemma FrameOfStep(ks: KeyScheme, db: Db, c: Call)
    requires Attempt(ks, db, c).Ok?
    ensures Frames(db, Attempt(ks, db, c).value, c.event)
  {
    if c.event.Fund? || c.event.Settle? || c.event.ChargeBack? || c.event.WriteOff? {
      FrameOfMoneyMove(ks, db, c);
    } else if c.event.RunFees? {
    } else if IsMove(c.event) || c.event.Create? {
      FrameOfHandler(ks, db, c);
    } else {
      FrameOfOther(ks, db, c);
    }
  }

  lemma FrameOfMoneyMove(ks: KeyScheme, db: Db, c: Call)
    requires Attempt(ks, db, c).Ok?
    requires c.event.Fund? || c.event.Settle? || c.event.ChargeBack? || c.event.WriteOff?
    ensures Frames(db, Attempt(ks, db, c).value, c.event)
  {
  }

  lemma FrameOfHandler(ks: KeyScheme, db: Db, c: Call)
    requires Attempt(ks, db, c).Ok?
    requires c.event.Create? || c.event.Handle? || c.event.RaiseDispute? || c.event.ResolveDispute? || c.event.Cancel?
    ensures Frames(db, Attempt(ks, db, c).value, c.event)
  {
  }

  lemma FrameOfOther(ks: KeyScheme, db: Db, c: Call)
    requires Attempt(ks, db, c).Ok?
    requires !IsMove(c.event) && !c.event.Create? && !c.event.RunFees?
    ensures Frames(db, Attempt(ks, db, c).value, c.event)
  {
  }
}
