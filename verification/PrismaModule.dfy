/** The store the services share: one field per table. */
module PrismaModule {
  import opened Wrappers
  import opened StateMachine
  import opened Credit
  import opened Ledger
  import opened FeeCalculator
  import opened Schema

  class Prisma {
    /** The id string the store gives to a row number. */
    const uuid: nat -> string

    var invoices: seq<Invoice>
    var history: seq<StatusRow>
    var disputes: seq<Dispute>
    var holds: seq<HoldEvent>
    var chargebacks: seq<Chargeback>
    var limits: map<nat, Limit>
    var changeLog: seq<ChangeRow>
    var ledger: seq<LedgerEntry>
    var payments: seq<Payment>
    var matches: seq<Match>
    var accruals: seq<Accrual>
    var feeInvoices: map<(nat, int), FeeInvoice>
    var tiers: seq<FeeTier>
    var feeConfigs: seq<FeeConfig>

    function Snapshot(): Db
      reads this
    {
      Db(invoices, history, disputes, holds, chargebacks, CreditTables(limits, changeLog), ledger, payments, matches,
         accruals, feeInvoices, tiers, feeConfigs)
    }

    constructor (uuid: nat -> string)
      ensures Snapshot() == EMPTY && this.uuid == uuid
    {
      this.uuid := uuid;
      invoices, history, disputes, holds, chargebacks := [], [], [], [], [];
      limits, changeLog, ledger := map[], [], [];
      payments, matches, accruals, feeInvoices := [], [], [], map[];
      tiers, feeConfigs := [], [];
    }

    /** What the store does when the body of a transaction throws. */
    method Rollback(db: Db)
      modifies this
      ensures Snapshot() == db
    {
      RestoreInvoiceTables(db);
      RestoreMoneyTables(db);
      RestoreFeeTables(db);
    }

    method RestoreInvoiceTables(db: Db)
      modifies this`invoices, this`history, this`disputes, this`holds, this`chargebacks
      ensures invoices == db.invoices && history == db.history && disputes == db.disputes
      ensures holds == db.holds && chargebacks == db.chargebacks
    {
      invoices, history, disputes := db.invoices, db.history, db.disputes;
      holds, chargebacks := db.holds, db.chargebacks;
    }

    method RestoreMoneyTables(db: Db)
      modifies this`limits, this`changeLog, this`ledger, this`payments, this`matches
      ensures CreditTables(limits, changeLog) == db.credit && ledger == db.ledger
      ensures payments == db.payments && matches == db.matches
    {
      limits, changeLog, ledger := db.credit.limits, db.credit.changeLog, db.ledger;
      payments, matches := db.payments, db.matches;
    }

    method RestoreFeeTables(db: Db)
      modifies this`accruals, this`feeInvoices, this`tiers, this`feeConfigs
      ensures accruals == db.accruals && feeInvoices == db.feeInvoices && tiers == db.tiers && feeConfigs == db.feeConfigs
    {
      accruals, feeInvoices, tiers, feeConfigs := db.accruals, db.feeInvoices, db.tiers, db.feeConfigs;
    }
  }

  /** A call ends as specified: the new tables, or the specified error and the tables it started from. */
  ghost predicate EndsAs<T>(spec: Result<Db>, before: Db, after: Db, r: Result<T>) {
    match spec
    case Ok(db) => r.Ok? && after == db
    case Err(e) => r == Err(e) && after == before
  }

  /** The body of a transaction ends as specified; what it leaves behind when it throws is for the store to undo. */
  ghost predicate BodyEndsAs<T>(spec: Result<Db>, after: Db, r: Result<T>) {
    match spec
    case Ok(db) => r.Ok? && after == db
    case Err(e) => r == Err(e)
  }
}
