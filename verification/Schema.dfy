/** The database tables. A row's id is its position in its table, as the store assigns ids that are never reused. */
module Schema {
  import opened Wrappers
  import opened Sums
  import opened StateMachine
  import opened Credit
  import opened Ledger
  import opened FeeCalculator

  datatype Invoice = Invoice(id: nat, invoiceNumber: string, brokerId: nat, mcId: nat, totalAmount: nat, gallons: nat,
                             status: Status, reserveHold: bool, advanceAmount: Option<int>, reserveAmount: Option<int>)

  datatype DisputeStatus = Open | Resolved

  datatype Dispute = Dispute(invoiceId: nat, status: DisputeStatus)

  datatype HoldEvent = HoldEvent(invoiceId: nat, active: bool)

  datatype ChargebackStatus = Completed | ChargebackWrittenOff

  datatype Chargeback = Chargeback(invoiceId: nat, amount: nat, status: ChargebackStatus, ledgerEntryId: Option<nat>)

  datatype PaymentStatus = Unmatched | PartiallyMatched | FullyMatched | Overpaid

  datatype Payment = Payment(id: nat, mcId: nat, amount: nat, status: PaymentStatus)

  datatype Match = Match(paymentId: nat, invoiceId: nat, amount: nat)

  /** periodMonth is a month number, see Period. */
  datatype Accrual = Accrual(invoiceId: nat, brokerId: nat, periodMonth: int, tierId: Option<nat>, feePct: nat,
                             baseAmount: nat, feeAmount: int)

  datatype FeeInvoiceStatus = FeeDraft | FeeIssued

  datatype FeeInvoice = FeeInvoice(gallonsVolume: int, dollarVolume: int, tierId: Option<nat>, calculatedFee: int,
                                   minimumFeeShortfallApplied: bool, totalFeeAmount: int, status: FeeInvoiceStatus)

  datatype FeeConfig = FeeConfig(minimumMonthlyFee: nat, effectiveFrom: int, effectiveTo: Option<int>)

  /** One value of all tables. */
  datatype Db = Db(
    invoices: seq<Invoice>,
    history: seq<StatusRow>,
    disputes: seq<Dispute>,
    holds: seq<HoldEvent>,
    chargebacks: seq<Chargeback>,
    credit: CreditTables,
    ledger: seq<LedgerEntry>,
    payments: seq<Payment>,
    matches: seq<Match>,
    accruals: seq<Accrual>,
    feeInvoices: map<(nat, int), FeeInvoice>,
    tiers: seq<FeeTier>,
    feeConfigs: seq<FeeConfig>)

  const EMPTY := Db([], [], [], [], [], CreditTables(map[], []), [], [], [], [], map[], [], [])

  // ---- Row selections used by the queries

  function RowOf(invoiceId: nat): StatusRow -> bool {
    (row: StatusRow) => row.invoiceId == invoiceId
  }

  /** An invoice's own status history. */
  function HistoryOf(history: seq<StatusRow>, invoiceId: nat): seq<StatusRow> {
    Filter(history, RowOf(invoiceId))
  }

  function OpenDisputeOf(invoiceId: nat): Dispute -> bool {
    (d: Dispute) => d.invoiceId == invoiceId && d.status == Open
  }

  function ActiveHoldOf(invoiceId: nat): HoldEvent -> bool {
    (h: HoldEvent) => h.invoiceId == invoiceId && h.active
  }

  function ChargebackOf(invoiceId: nat): Chargeback -> bool {
    (c: Chargeback) => c.invoiceId == invoiceId
  }

  function MatchedToInvoice(invoiceId: nat): Match -> int {
    (m: Match) => if m.invoiceId == invoiceId then m.amount else 0
  }

  function MatchedToPayment(paymentId: nat): Match -> int {
    (m: Match) => if m.paymentId == paymentId then m.amount else 0
  }
}
