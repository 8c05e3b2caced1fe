/** Optional values, and the outcome of a call that may throw. */
module Wrappers {

  datatype Option<+T> = None | Some(value: T)

  /** The exceptions the modelled services throw, one constructor for each distinct check. */
  datatype Error =
    | InvoiceNotFound
    | PaymentNotFound
    | NotTransactable
    | CompanyNotFound
    | DuplicateInvoiceNumber
    | NoDocument
    | ExtractionFailed
    | IllegalTransition
    | LimitNotConfigured
    | LimitExceeded(overBy: int)
    | NotApprovedForFunding
    | NotFunded
    | NotChargedBack
    | HoldActive
    | NoActiveHold
    | ReconciliationIncomplete
    | DifferentCompanies
    | FeeInvoiceFinal
    | FeeInvoiceNotFound
    | TierNotFound

  datatype Result<+R> = Ok(value: R) | Err(error: Error) {
    predicate IsFailure() {
      Err?
    }

    function PropagateFailure<U>(): Result<U>
      requires Err?
    {
      Err(error)
    }

    function Extract(): R
      requires Ok?
    {
      value
    }
  }
}
