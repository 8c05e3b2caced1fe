/** The ledger service. */
module LedgerModule {
  import opened Wrappers
  import opened Sums
  import opened Ledger
  import opened Schema
  import opened PrismaModule

  class LedgerService {
    const prisma: Prisma

    constructor (prisma: Prisma)
      ensures this.prisma == prisma
    {
      this.prisma := prisma;
    }

    /** Appends the entry unless its key is taken; returns where the entry under the key stands. */
    method Record(input: LedgerEntry) returns (entry: nat)
      modifies prisma`ledger
      ensures prisma.Snapshot() == old(prisma.Snapshot()).(ledger := Ledger.Record(old(prisma.ledger), input))
      ensures entry == Position(old(prisma.ledger), input.key)
      ensures entry < |prisma.ledger| && prisma.ledger[entry].key == input.key
    {
      var existing := FindFirst(prisma.ledger, WithKey(input.key));
      if existing.Some? {
        return existing.value;
      }
      entry := |prisma.ledger|;
      prisma.ledger := prisma.ledger + [input];
    }

    /** The totals by entry type: a type has one exactly when an entry has the type. */
    method TotalsByType(entries: seq<LedgerEntry>) returns (totals: map<EntryType, int>)
      ensures forall kind :: kind in totals <==> exists j :: 0 <= j < |entries| && entries[j].entryType == kind
      ensures forall kind :: kind in totals ==> totals[kind] == Sum(entries, OfType(kind))
    {
      totals := map[];
      for i := 0 to |entries|
        invariant forall kind :: kind in totals <==> exists j :: 0 <= j < i && entries[j].entryType == kind
        invariant forall kind :: (if kind in totals then totals[kind] else 0) == Sum(entries[..i], OfType(kind))
      {
        var e := entries[i];
        var running := if e.entryType in totals then totals[e.entryType] else 0;
        totals := totals[e.entryType := running + e.amount];
        assert entries[..i + 1] == entries[..i] + [e];
        forall kind ensures Sum(entries[..i + 1], OfType(kind)) == Sum(entries[..i], OfType(kind)) + OfType(kind)(e) {
          SumAppend(entries[..i], e, OfType(kind));
        }
      }
      assert entries[..|entries|] == entries;
    }
  }
}
