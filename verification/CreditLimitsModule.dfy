/** The credit sub-limit service and the route that sets a limit. */
module CreditLimitsModule {
  import opened Wrappers
  import opened Credit
  import opened Schema
  import opened PrismaModule

  /** The answer of wouldExceed. */
  datatype LimitAnswer = LimitAnswer(exceeds: bool, projectedUsed: int, totalLimit: int, overBy: int)

  /** The answer of getUtilization. */
  datatype Utilization = Utilization(totalLimit: int, currentUsed: int, available: int, utilizationPct: real)

  class CreditLimitsService {
    const prisma: Prisma

    constructor (prisma: Prisma)
      ensures this.prisma == prisma
    {
      this.prisma := prisma;
    }

    /** available and utilizationPct agree: what is used and what is left make up the limit, and the percentage passes a
        hundred exactly when nothing is left and more. */
    method GetUtilization(mcId: nat) returns (r: Result<Utilization>)
      ensures r.Err? <==> mcId !in prisma.limits
      ensures r.Err? ==> r.error == LimitNotConfigured
      ensures r.Ok? ==> prisma.limits[mcId] == Limit(r.value.totalLimit, r.value.currentUsed)
                        && r.value.currentUsed + r.value.available == r.value.totalLimit
      ensures r.Ok? && r.value.totalLimit == 0 ==> r.value.utilizationPct == 0.0
      ensures r.Ok? && r.value.totalLimit > 0 ==>
                && r.value.utilizationPct * r.value.totalLimit as real == r.value.currentUsed as real * 100.0
                && (r.value.utilizationPct > 100.0 <==> r.value.available < 0)
    {
      if mcId !in prisma.limits {
        return Err(LimitNotConfigured);
      }
      var limit := prisma.limits[mcId];
      var available := limit.totalLimit - limit.currentUsed;
      if limit.totalLimit == 0 {
        return Ok(Utilization(limit.totalLimit, limit.currentUsed, available, 0.0));
      }
      var pct := limit.currentUsed as real / limit.totalLimit as real * 100.0;
      if limit.totalLimit > 0 {
        PercentageOf(limit.currentUsed as real, limit.totalLimit as real);
      }
      return Ok(Utilization(limit.totalLimit, limit.currentUsed, available, pct));
    }

    /** Moves the counter and logs the move, unless the key is in the log. */
    method ApplyDelta(input: DeltaRequest) returns (r: Result<()>)
      modifies prisma
      ensures var spec := Credit.ApplyDelta(old(prisma.Snapshot()).credit, input);
              match spec
              case Ok(credit) => r.Ok? && prisma.Snapshot() == old(prisma.Snapshot()).(credit := credit)
              case Err(e) => r == Err(e) && prisma.Snapshot() == old(prisma.Snapshot())
    {
      if LogHasKey(prisma.changeLog, input.key) {
        return Ok(());
      }
      if input.mcId !in prisma.limits {
        return Err(LimitNotConfigured);
      }
      var limit := prisma.limits[input.mcId];
      var previousUsed := limit.currentUsed;
      var newUsed := previousUsed + input.delta;
      prisma.limits := prisma.limits[input.mcId := limit.(currentUsed := newUsed)];
      prisma.changeLog := prisma.changeLog
        + [ChangeRow(input.mcId, input.delta, input.reason, input.invoiceId, previousUsed, newUsed, input.key)];
      return Ok(());
    }

    /** exceeds and overBy say what the funding gate stops on. */
    method WouldExceed(mcId: nat, additionalAmount: int) returns (r: Result<LimitAnswer>)
      ensures match LimitCheck(prisma.Snapshot().credit, mcId, additionalAmount)
              case None => r.Ok? && !r.value.exceeds && r.value.overBy == 0
              case Some(LimitExceeded(overBy)) => r.Ok? && r.value.exceeds && r.value.overBy == overBy && 0 < overBy
              case Some(e) => r == Err(e)
      ensures r.Ok? ==> r.value.projectedUsed == Used(prisma.Snapshot().credit, mcId) + additionalAmount
      ensures r.Ok? ==> r.value.exceeds == (r.value.totalLimit < r.value.projectedUsed)
      ensures r.Ok? ==> mcId in prisma.limits && r.value.totalLimit == prisma.limits[mcId].totalLimit
                        && (r.value.exceeds ==> r.value.overBy == r.value.projectedUsed - r.value.totalLimit)
    {
      if mcId !in prisma.limits {
        return Err(LimitNotConfigured);
      }
      var limit := prisma.limits[mcId];
      var projected := limit.currentUsed + additionalAmount;
      return Ok(LimitAnswer(projected > limit.totalLimit, projected, limit.totalLimit,
                            if projected > limit.totalLimit then projected - limit.totalLimit else 0));
    }
  }

  lemma PercentageOf(used: real, total: real)
    requires total > 0.0
    ensures (used / total * 100.0) * total == used * 100.0
    ensures used / total * 100.0 > 100.0 <==> used > total
  {
    var q := used / total;
    assert q * total == used;
    if q > 1.0 {
      assert (q - 1.0) * total > 0.0;
    } else {
      assert (1.0 - q) * total >= 0.0;
    }
  }

  class CreditLimitsController {
    const prisma: Prisma

    constructor (prisma: Prisma)
      ensures this.prisma == prisma
    {
      this.prisma := prisma;
    }

    /** Upserts the cap; the counter of an existing row stays. */
    method SetLimit(mcId: nat, totalLimit: int)
      modifies prisma
      ensures prisma.Snapshot() == old(prisma.Snapshot()).(credit := Credit.SetLimit(old(prisma.Snapshot()).credit, mcId, totalLimit))
    {
      if mcId in prisma.limits {
        prisma.limits := prisma.limits[mcId := prisma.limits[mcId].(totalLimit := totalLimit)];
      } else {
        prisma.limits := prisma.limits[mcId := Limit(totalLimit, 0)];
      }
    }
  }
}
