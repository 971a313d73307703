/** The donation lifecycle: the status graph the donor and NGO pages follow,
    and the buttons those pages offer on a donation card. */
module Lifecycle {
  import opened Wrappers
  import opened Records

  datatype Action = Accept | Reject | MarkPickedUp | MarkDelivered | Cancel | ViewDetails

  /** The status an action's handler writes; viewing details writes none. */
  function Target(a: Action): Option<Status> {
    match a
    case Accept => Some(Accepted)
    case Reject => Some(Rejected)
    case MarkPickedUp => Some(PickedUp)
    case MarkDelivered => Some(Delivered)
    case Cancel => Some(Cancelled)
    case ViewDetails => None
  }

  /** pending -> accepted | rejected | cancelled, accepted -> picked_up | rejected,
      picked_up -> delivered; delivered, rejected and cancelled are final. */
  predicate Edge(from: Status, to: Status) {
    match from
    case Pending => to == Accepted || to == Rejected || to == Cancelled
    case Accepted => to == PickedUp || to == Rejected
    case PickedUp => to == Delivered
    case _ => false
  }

  /** The donor owns the cancel edge; the NGO owns every other edge. */
  predicate DonorOwns(to: Status) {
    to == Cancelled
  }

  predicate Final(s: Status) {
    s == Delivered || s == Rejected || s == Cancelled
  }

  /** The button that leads to status `to`; no button leads back to pending. */
  function ActionFor(to: Status): (a: Action)
    requires to != Pending
    ensures Target(a) == Some(to)
  {
    match to
    case Accepted => Accept
    case Rejected => Reject
    case PickedUp => MarkPickedUp
    case Delivered => MarkDelivered
    case Cancelled => Cancel
  }

  /** Nothing leads back to pending, and final statuses have no way out. */
  lemma EdgeShape(from: Status, to: Status)
    ensures Edge(from, to) ==> to != Pending && !Final(from)
  {
  }

  /** The four steps of the status-flow strip, in order. */
  const FlowSteps: seq<Status> := [Pending, Accepted, PickedUp, Delivered]
}
