/** The ride status table and the order it induces. */
module Lifecycle {
  import opened Types

  /** `RideTransitions`. */
  function RideTransitions(status: RideStatus): set<RideStatus> {
    match status
    case Requested => {Dispatching, Cancelled}
    case Dispatching => {Accepted, Cancelled}
    case Accepted => {Arriving, Dispatching, Cancelled}
    case Arriving => {Ongoing, Dispatching, Cancelled}
    case Ongoing => {Completed, Cancelled}
    case Completed => {}
    case Cancelled => {}
  }

  predicate Terminal(status: RideStatus) {
    status == Completed || status == Cancelled
  }

  /** The statuses in which a driver is bound to the ride. */
  predicate Assigned(status: RideStatus) {
    status == Accepted || status == Arriving || status == Ongoing
  }

  function Rank(status: RideStatus): nat {
    match status
    case Requested => 0
    case Dispatching => 1
    case Accepted => 2
    case Arriving => 3
    case Ongoing => 4
    case Completed => 5
    case Cancelled => 6
  }

  /** The table: one status on at a time, CANCELLED from anywhere, and back to dispatch from ACCEPTED and ARRIVING only. */
  lemma TableClimbs(a: RideStatus, b: RideStatus)
    ensures b in RideTransitions(a) <==>
            && !Terminal(a)
            && (b == Cancelled || Rank(b) == Rank(a) + 1 || (b == Dispatching && (a == Accepted || a == Arriving)))
  {
  }
}
