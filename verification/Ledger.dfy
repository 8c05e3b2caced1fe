/** The ledger: an append-only log that ignores an entry whose idempotency key it already holds. */
module Ledger {
  import opened Wrappers
  import opened Sums

  datatype EntryType =
    | FundingDisbursement
    | ReserveHold
    | FeeAccrualEntry
    | FeeInvoiceEntry
    | PaymentReceipt
    | ReserveRelease
    | Adjustment
    | ChargebackEntry
    | Repurchase
    | WriteOffEntry
    | ManualCorrection

  datatype LedgerEntry = LedgerEntry(entryType: EntryType, amount: int, invoiceId: Option<nat>, brokerId: Option<nat>,
                                     mcId: Option<nat>, key: string)

  function WithKey(key: string): LedgerEntry -> bool {
    (e: LedgerEntry) => e.key == key
  }

  predicate HasKey(ledger: seq<LedgerEntry>, key: string) {
    exists j :: 0 <= j < |ledger| && ledger[j].key == key
  }

  function Record(ledger: seq<LedgerEntry>, e: LedgerEntry): seq<LedgerEntry> {
    if HasKey(ledger, e.key) then ledger else ledger + [e]
  }

  /** Where the entry that record returns stands: the one already under the key, or the new one at the end. */
  function Position(ledger: seq<LedgerEntry>, key: string): nat {
    match FindFirst(ledger, WithKey(key))
    case Some(j) => j
    case None => |ledger|
  }

  /** The amounts recorded for an invoice under an entry type, in order. */
  function AmountsFor(ledger: seq<LedgerEntry>, kind: EntryType, invoiceId: nat): seq<int> {
    if ledger == [] then []
    else
      var n := |ledger| - 1;
      var amounts := AmountsFor(ledger[..n], kind, invoiceId);
      if ledger[n].entryType == kind && ledger[n].invoiceId == Some(invoiceId) then amounts + [ledger[n].amount] else amounts
  }

  function OfType(kind: EntryType): LedgerEntry -> int {
    (e: LedgerEntry) => if e.entryType == kind then e.amount else 0
  }

  function ReceiptsOf(mcId: nat): LedgerEntry -> int {
    (e: LedgerEntry) => if e.entryType == PaymentReceipt && e.mcId == Some(mcId) then e.amount else 0
  }

  function AccrualsOf(brokerId: nat): LedgerEntry -> int {
    (e: LedgerEntry) => if e.entryType == FeeAccrualEntry && e.brokerId == Some(brokerId) then e.amount else 0
  }

  lemma AmountsAppend(ledger: seq<LedgerEntry>, e: LedgerEntry, kind: EntryType, invoiceId: nat)
    ensures AmountsFor(ledger + [e], kind, invoiceId)
         == (if e.entryType == kind && e.invoiceId == Some(invoiceId) then AmountsFor(ledger, kind, invoiceId) + [e.amount]
             else AmountsFor(ledger, kind, invoiceId))
  {
    assert (ledger + [e])[..|ledger|] == ledger;
  }

  lemma RecordKeys(ledger: seq<LedgerEntry>, e: LedgerEntry, key: string)
    ensures HasKey(Record(ledger, e), key) <==> HasKey(ledger, key) || key == e.key
  {
    if !HasKey(ledger, e.key) {
      assert (ledger + [e])[|ledger|] == e;
      assert forall j :: 0 <= j < |ledger| ==> (ledger + [e])[j] == ledger[j];
    }
  }

  // ---- Retries

  function RecordAll(ledger: seq<LedgerEntry>, entries: seq<LedgerEntry>): seq<LedgerEntry> {
    if entries == [] then ledger
    else Record(RecordAll(ledger, entries[..|entries| - 1]), entries[|entries| - 1])
  }

  /** The entries without those whose key an earlier one used. */
  function FirstOccurrences(entries: seq<LedgerEntry>): seq<LedgerEntry> {
    if entries == [] then []
    else
      var n := |entries| - 1;
      var first := FirstOccurrences(entries[..n]);
      if HasKey(entries[..n], entries[n].key) then first else first + [entries[n]]
  }

  lemma {:induction false} RecordAllKeys(ledger: seq<LedgerEntry>, entries: seq<LedgerEntry>, key: string)
    ensures HasKey(RecordAll(ledger, entries), key) <==> HasKey(ledger, key) || HasKey(entries, key)
  {
    if entries != [] {
      var n := |entries| - 1;
      RecordAllKeys(ledger, entries[..n], key);
      RecordKeys(RecordAll(ledger, entries[..n]), entries[n], key);
      assert HasKey(entries, key) <==> HasKey(entries[..n], key) || entries[n].key == key by {
        assert forall j :: 0 <= j < n ==> entries[..n][j] == entries[j];
      }
    }
  }

  /** Recording entries with any repetition of keys leaves exactly the ledger of their first occurrences. */
  lemma {:induction false} ReplayEquivalence(ledger: seq<LedgerEntry>, entries: seq<LedgerEntry>)
    ensures RecordAll(ledger, entries) == RecordAll(ledger, FirstOccurrences(entries))
  {
    if entries != [] {
      var n := |entries| - 1;
      ReplayEquivalence(ledger, entries[..n]);
      if HasKey(entries[..n], entries[n].key) {
        RecordAllKeys(ledger, entries[..n], entries[n].key);
      } else {
        var first := FirstOccurrences(entries[..n]);
        assert (first + [entries[n]])[..|first|] == first;
      }
    }
  }
}
