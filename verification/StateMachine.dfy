/** The invoice lifecycle graph, and what every walk through it looks like. */
module StateMachine {
  import opened Sums

  datatype Status =
    | Draft
    | Uploaded
    | Extracting
    | PendingBrokerReview
    | PendingMcApproval
    | McDisputed
    | PendingUnderwriting
    | InfoRequested
    | Rejected
    | ApprovedForFunding
    | Funded
    | Settled
    | ChargedBack
    | WrittenOff
    | Cancelled

  /** One row of the status history. */
  datatype StatusRow = StatusRow(invoiceId: nat, from: Status, to: Status, createdAt: int)

  function Transitions(from: Status): set<Status> {
    match from
    case Draft => {Uploaded, Cancelled}
    case Uploaded => {Extracting, Cancelled}
    case Extracting => {PendingBrokerReview}
    case PendingBrokerReview => {PendingMcApproval, Cancelled}
    case PendingMcApproval => {McDisputed, PendingUnderwriting, Cancelled}
    case McDisputed => {PendingMcApproval, Cancelled}
    case PendingUnderwriting => {ApprovedForFunding, Rejected, InfoRequested}
    case InfoRequested => {PendingUnderwriting}
    case ApprovedForFunding => {Funded}
    case Funded => {Settled, ChargedBack}
    case ChargedBack => {WrittenOff}
    case Rejected => {}
    case Settled => {}
    case WrittenOff => {}
    case Cancelled => {}
  }

  predicate IsLegal(from: Status, to: Status) {
    to in Transitions(from)
  }

  /** From where each status can be entered: the graph read backwards. */
  lemma Predecessors(from: Status)
    ensures !IsLegal(from, Draft)
    ensures IsLegal(from, Uploaded) <==> from == Draft
    ensures IsLegal(from, Extracting) <==> from == Uploaded
    ensures IsLegal(from, PendingBrokerReview) <==> from == Extracting
    ensures IsLegal(from, PendingMcApproval) <==> from == PendingBrokerReview || from == McDisputed
    ensures IsLegal(from, McDisputed) <==> from == PendingMcApproval
    ensures IsLegal(from, PendingUnderwriting) <==> from == PendingMcApproval || from == InfoRequested
    ensures IsLegal(from, InfoRequested) <==> from == PendingUnderwriting
    ensures IsLegal(from, Rejected) <==> from == PendingUnderwriting
    ensures IsLegal(from, ApprovedForFunding) <==> from == PendingUnderwriting
    ensures IsLegal(from, Funded) <==> from == ApprovedForFunding
    ensures IsLegal(from, Settled) <==> from == Funded
    ensures IsLegal(from, ChargedBack) <==> from == Funded
    ensures IsLegal(from, WrittenOff) <==> from == ChargedBack
    ensures IsLegal(from, Cancelled) <==>
            from == Draft || from == Uploaded || from == PendingBrokerReview || from == PendingMcApproval || from == McDisputed
  {
  }

  /** Statuses that can only be reached through FUNDED. */
  predicate EverFunded(s: Status) {
    s == Funded || s == Settled || s == ChargedBack || s == WrittenOff
  }

  predicate EverApproved(s: Status) {
    s == ApprovedForFunding || EverFunded(s)
  }

  predicate EverChargedBack(s: Status) {
    s == ChargedBack || s == WrittenOff
  }

  /** The statuses that end an invoice's fee accrual. */
  predicate IsResolved(s: Status) {
    s == Settled || s == ChargedBack || s == WrittenOff
  }

  /** The rows are a walk of legal transitions from DRAFT to the given status. */
  ghost predicate IsPath(rows: seq<StatusRow>, end: Status) {
    if rows == [] then end == Draft
    else
      var n := |rows| - 1;
      rows[n].to == end && IsLegal(rows[n].from, end) && IsPath(rows[..n], rows[n].from)
  }

  function Enters(s: Status): StatusRow -> int {
    (row: StatusRow) => if row.to == s then 1 else 0
  }

  /** How often a history enters a status. */
  function Visits(rows: seq<StatusRow>, s: Status): int {
    Sum(rows, Enters(s))
  }

  /** Rows a walk to s needs when every dispute and every information request is counted apart, at two rows each. */
  function Rank(s: Status): int {
    match s
    case Draft => 0
    case Uploaded => 1
    case Extracting => 2
    case PendingBrokerReview => 3
    case PendingMcApproval => 4
    case McDisputed => 3
    case PendingUnderwriting => 5
    case InfoRequested => 4
    case Rejected => 6
    case ApprovedForFunding => 6
    case Funded => 7
    case Settled => 8
    case ChargedBack => 8
    case WrittenOff => 9
    case Cancelled => 0
  }

  ghost function Potential(rows: seq<StatusRow>, s: Status): int {
    Rank(s) + 2 * (Visits(rows, McDisputed) + Visits(rows, InfoRequested))
  }

  /** The length of a history is fixed by where it ends and how many loops it took; a cancelled one has one row more
      than the potential of the status it was cancelled from. */
  lemma {:induction false} HistoryLength(rows: seq<StatusRow>, s: Status)
    requires IsPath(rows, s)
    ensures s != Cancelled ==> |rows| == Potential(rows, s)
    ensures s == Cancelled ==> |rows| == 1 + Potential(rows, rows[|rows| - 1].from)
  {
    if rows != [] {
      var n := |rows| - 1;
      HistoryLength(rows[..n], rows[n].from);
    }
  }

  /** Without disputes and information requests no run of an invoice has more than nine rows. */
  lemma StraightHistoryAtMostNine(rows: seq<StatusRow>, s: Status)
    requires IsPath(rows, s)
    requires Visits(rows, McDisputed) == 0 && Visits(rows, InfoRequested) == 0
    ensures |rows| <= 9
  {
    HistoryLength(rows, s);
  }

  /** The graph's only cycles are the dispute and the information loop, so the money statuses are entered at most
      once, and exactly when the walk ends at or past them. */
  lemma {:induction false} EntersMoneyStatusesOnce(rows: seq<StatusRow>, s: Status)
    requires IsPath(rows, s)
    ensures Visits(rows, ApprovedForFunding) == (if EverApproved(s) then 1 else 0)
    ensures Visits(rows, Funded) == (if EverFunded(s) then 1 else 0)
    ensures Visits(rows, Settled) == (if s == Settled then 1 else 0)
    ensures Visits(rows, ChargedBack) == (if EverChargedBack(s) then 1 else 0)
    ensures Visits(rows, WrittenOff) == (if s == WrittenOff then 1 else 0)
  {
    if rows != [] {
      var n := |rows| - 1;
      EntersMoneyStatusesOnce(rows[..n], rows[n].from);
    }
  }

  datatype Edge = Edge(from: Status, to: Status)

  /** The edges every funded invoice must have taken, in order. */
  function Waypoints(): seq<Edge> {
    [Edge(Extracting, PendingBrokerReview), Edge(PendingBrokerReview, PendingMcApproval),
     Edge(PendingMcApproval, PendingUnderwriting), Edge(PendingUnderwriting, ApprovedForFunding),
     Edge(ApprovedForFunding, Funded)]
  }

  predicate IsWaypoint(row: StatusRow) {
    Edge(row.from, row.to) in Waypoints()
  }

  /** The waypoint edges of a history, in the order taken and with repetitions. */
  ghost function WaypointsTaken(rows: seq<StatusRow>): seq<Edge> {
    if rows == [] then []
    else
      var n := |rows| - 1;
      var taken := WaypointsTaken(rows[..n]);
      if IsWaypoint(rows[n]) then taken + [Edge(rows[n].from, rows[n].to)] else taken
  }

  /** How many waypoints lie behind a walk that ends at s. */
  function Level(s: Status): int {
    match s
    case PendingBrokerReview => 1
    case PendingMcApproval => 2
    case McDisputed => 2
    case PendingUnderwriting => 3
    case InfoRequested => 3
    case Rejected => 3
    case ApprovedForFunding => 4
    case Funded => 5
    case Settled => 5
    case ChargedBack => 5
    case WrittenOff => 5
    case _ => 0
  }

  lemma {:induction false} WaypointsUpTo(rows: seq<StatusRow>, s: Status)
    requires IsPath(rows, s) && s != Cancelled
    ensures WaypointsTaken(rows) == Waypoints()[..Level(s)]
  {
    if rows != [] {
      var n := |rows| - 1;
      WaypointsUpTo(rows[..n], rows[n].from);
    }
  }

  /** A history that ever entered FUNDED took the five waypoint edges exactly once each and in order, however many
      disputes and information requests lie between. */
  lemma MandatoryWaypoints(rows: seq<StatusRow>, s: Status)
    requires IsPath(rows, s)
    requires 0 < Visits(rows, Funded)
    ensures WaypointsTaken(rows) == Waypoints()
  {
    EntersMoneyStatusesOnce(rows, s);
    WaypointsUpTo(rows, s);
  }
}
