/** The NGO pages (`NgoManager`): the buttons on a request card, the handlers
    those buttons call, the status strip and badge, and the NGO's statistics
    and status filter. The signed-in NGO's id is a parameter where the source
    reads it from the session. */
module NgoManager {
  import opened Wrappers
  import opened Seqs
  import opened Records
  import opened Lifecycle
  import opened Storage
  import opened Queries

  /** `getRequestActions`: the buttons for a request in `status`, built up
      the way the source concatenates them, with "View Details" last. */
  method GetRequestActions(status: Status) returns (actions: seq<Action>)
    ensures |actions| >= 1 && actions[|actions| - 1] == ViewDetails
    ensures forall i :: 0 <= i < |actions| - 1 ==>
      Target(actions[i]).Some? && Edge(status, Target(actions[i]).value) && !DonorOwns(Target(actions[i]).value)
    ensures forall t :: Edge(status, t) && !DonorOwns(t) ==> ActionFor(t) in actions
    ensures forall i, j :: 0 <= i < j < |actions| ==> actions[i] != actions[j]
    ensures Final(status) ==> actions == [ViewDetails]
    ensures status == Pending ==> actions == [Accept, Reject, ViewDetails]
    ensures status == Accepted ==> actions == [MarkPickedUp, Reject, ViewDetails]
    ensures status == PickedUp ==> actions == [MarkDelivered, ViewDetails]
  {
    actions := [];
    if status == Pending {
      actions := actions + [Accept, Reject];
    } else if status == Accepted {
      actions := actions + [MarkPickedUp, Reject];
    } else if status == PickedUp {
      actions := actions + [MarkDelivered];
    }
    actions := actions + [ViewDetails];
  }

  /** `acceptDonation`: once confirmed, the donation gets status accepted,
      whatever its status was. */
  method AcceptDonation(store: StorageManager, id: int, confirmed: bool, now: nat)
    requires store.Valid() && store.clock <= now
    modifies store
    ensures store.Valid()
    ensures confirmed ==>
      (store.donations == PatchDonations(old(store.donations), id, SetStatus(Accepted), now)
       && store.users == old(store.users) && store.donationIdCounter == old(store.donationIdCounter))
    ensures !confirmed ==> unchanged(store)
  {
    if confirmed {
      var _ := store.UpdateDonation(id, SetStatus(Accepted), now);
    }
  }

  /** The reason stored on rejection: the prompt's answer, or the default when
      it was cancelled (`null`) or left empty. */
  function RejectionReason(answer: Option<string>): (r: string)
    ensures r != ""
    ensures answer.Some? && answer.value != "" ==> r == answer.value
    ensures answer.None? || answer.value == "" ==> r == "Rejected by NGO"
  {
    if answer.Some? && answer.value != "" then answer.value else "Rejected by NGO"
  }

  /** `rejectDonation`: no confirmation; status rejected and a non-empty reason. */
  method RejectDonation(store: StorageManager, id: int, answer: Option<string>, now: nat)
    requires store.Valid() && store.clock <= now
    modifies store
    ensures store.Valid()
    ensures store.donations
         == PatchDonations(old(store.donations), id, DonationPatch(Some(Rejected), Some(RejectionReason(answer))), now)
    ensures store.users == old(store.users) && store.donationIdCounter == old(store.donationIdCounter)
  {
    var _ := store.UpdateDonation(id, DonationPatch(Some(Rejected), Some(RejectionReason(answer))), now);
  }

  /** `markAsPickedUp`: once confirmed, status picked_up, whatever it was. */
  method MarkAsPickedUp(store: StorageManager, id: int, confirmed: bool, now: nat)
    requires store.Valid() && store.clock <= now
    modifies store
    ensures store.Valid()
    ensures confirmed ==>
      (store.donations == PatchDonations(old(store.donations), id, SetStatus(PickedUp), now)
       && store.users == old(store.users) && store.donationIdCounter == old(store.donationIdCounter))
    ensures !confirmed ==> unchanged(store)
  {
    if confirmed {
      var _ := store.UpdateDonation(id, SetStatus(PickedUp), now);
    }
  }

  /** `markAsDelivered`: once confirmed, status delivered, whatever it was. */
  method MarkAsDelivered(store: StorageManager, id: int, confirmed: bool, now: nat)
    requires store.Valid() && store.clock <= now
    modifies store
    ensures store.Valid()
    ensures confirmed ==>
      (store.donations == PatchDonations(old(store.donations), id, SetStatus(Delivered), now)
       && store.users == old(store.users) && store.donationIdCounter == old(store.donationIdCounter))
    ensures !confirmed ==> unchanged(store)
  {
    if confirmed {
      var _ := store.UpdateDonation(id, SetStatus(Delivered), now);
    }
  }

  /** The handlers do not look at the prior status: a status patch lands on the
      donation with that id from any status, even a final one, and leaves every
      other donation as it was. */
  lemma StatusPatchIsUnguarded(ds: seq<Donation>, id: int, s: Status, now: nat, i: int)
    requires 0 <= i < |ds|
    ensures var after := PatchDonations(ds, id, SetStatus(s), now);
      && |after| == |ds|
      && (ds[i].id == id ==> after[i].status == s && after[i].updatedAt == now
                             && after[i].rejectionReason == ds[i].rejectionReason && after[i].data == ds[i].data)
      && (ds[i].id != id ==> after[i] == ds[i])
  {
  }

  /** The rejection patch records the reason along with the status. */
  lemma RejectionPatchRecordsReason(ds: seq<Donation>, id: int, answer: Option<string>, now: nat, i: int)
    requires 0 <= i < |ds| && ds[i].id == id
    ensures var after := PatchDonations(ds, id, DonationPatch(Some(Rejected), Some(RejectionReason(answer))), now);
      after[i].status == Rejected && after[i].rejectionReason == Some(RejectionReason(answer))
  {
  }

  // ---------------------------------------------------------------- status strip

  function StepIs(s: Status): Status -> bool {
    (step: Status) => step == s
  }

  /** `steps.findIndex(step => step.id === currentStatus)`. */
  function FlowIndex(s: Status): (k: int)
    ensures -1 <= k < |FlowSteps|
    ensures 0 <= k ==> FlowSteps[k] == s
    ensures k == -1 <==> s !in FlowSteps
  {
    FirstIndex(FlowSteps, StepIs(s))
  }

  /** Where each status sits on the strip: pending first, delivered last,
      rejected and cancelled nowhere. */
  lemma FlowIndexValues()
    ensures FlowIndex(Pending) == 0 && FlowIndex(Accepted) == 1
    ensures FlowIndex(PickedUp) == 2 && FlowIndex(Delivered) == 3
    ensures FlowIndex(Rejected) == -1 && FlowIndex(Cancelled) == -1
  {
    FirstIndexAt(FlowSteps, StepIs(Pending), 0);
    FirstIndexAt(FlowSteps, StepIs(Accepted), 1);
    FirstIndexAt(FlowSteps, StepIs(PickedUp), 2);
    FirstIndexAt(FlowSteps, StepIs(Delivered), 3);
  }

  datatype StepClass = Plain | Completed | Active

  /** `getStatusFlow`: the class of each of the four steps. */
  function StatusFlow(s: Status): (r: seq<StepClass>)
    ensures |r| == |FlowSteps|
    ensures s in FlowSteps ==> r[FlowIndex(s)] == Active
    ensures s !in FlowSteps ==> forall i :: 0 <= i < |r| ==> r[i] == Plain
  {
    var k := FlowIndex(s);
    seq(|FlowSteps|, i requires 0 <= i < |FlowSteps| => if i < k then Completed else if i == k then Active else Plain)
  }

  /** Step `i` of the strip is completed exactly when it comes before the status,
      active exactly when it is the status, and plain for rejected and cancelled. */
  lemma StatusFlowMarks(s: Status, i: int)
    requires 0 <= i < |FlowSteps|
    ensures StatusFlow(s)[i] == Completed <==> i < FlowIndex(s)
    ensures StatusFlow(s)[i] == Active <==> FlowSteps[i] == s
    ensures s == Rejected || s == Cancelled ==> StatusFlow(s)[i] == Plain
  {
    var k := FlowIndex(s);
    assert StatusFlow(s)[i] == if i < k then Completed else if i == k then Active else Plain;
    if FlowSteps[i] == s {
      FirstIndexAt(FlowSteps, StepIs(s), i);
    }
  }

  /** Following an edge along the strip moves the active step one place on,
      and the step left behind becomes completed. */
  lemma FlowAdvances(from: Status, to: Status)
    requires Edge(from, to) && to != Rejected && to != Cancelled
    ensures FlowIndex(to) == FlowIndex(from) + 1
    ensures StatusFlow(to)[FlowIndex(from)] == Completed && StatusFlow(from)[FlowIndex(from)] == Active
  {
    FlowIndexValues();
  }

  /** `getStatusBadge`: the status whose badge is shown; anything off the strip shows pending. */
  function StatusBadge(s: Status): (shown: Status)
    ensures shown in FlowSteps
    ensures s in FlowSteps ==> shown == s
    ensures s !in FlowSteps ==> shown == Pending
  {
    match s
    case Pending => Pending
    case Accepted => Accepted
    case PickedUp => PickedUp
    case Delivered => Delivered
    case _ => Pending
  }

  /** `getTimeDisplay`: the three slot names get their hours; any other value is shown as is. */
  function TimeDisplay(time: string): (r: string)
    ensures time == "morning" ==> r == "Morning (9 AM - 12 PM)"
    ensures time == "afternoon" ==> r == "Afternoon (12 PM - 4 PM)"
    ensures time == "evening" ==> r == "Evening (4 PM - 7 PM)"
    ensures time != "morning" && time != "afternoon" && time != "evening" ==> r == time
  {
    if time == "morning" then "Morning (9 AM - 12 PM)"
    else if time == "afternoon" then "Afternoon (12 PM - 4 PM)"
    else if time == "evening" then "Evening (4 PM - 7 PM)"
    else time
  }

  // ---------------------------------------------------------------- statistics and filter

  datatype NgoStatistics = NgoStatistics(
    totalRequests: nat,
    pendingRequests: nat,
    acceptedRequests: nat,
    pickedUpRequests: nat,
    completedRequests: nat,
    totalItems: int,
    itemsByType: seq<TypeBucket>)

  /** `getNgoStatistics` for NGO `ngoId`, with `getItemsByType` on its donations,
      which is the per-type tally of the store. */
  method GetNgoStatistics(ds: seq<Donation>, ngoId: int) returns (s: NgoStatistics)
    ensures var mine := DonationsByNgo(ds, ngoId);
      && s.totalRequests == |mine|
      && s.pendingRequests == |Filter(mine, HasStatus(Pending))|
      && s.acceptedRequests == |Filter(mine, HasStatus(Accepted))|
      && s.pickedUpRequests == |Filter(mine, HasStatus(PickedUp))|
      && s.completedRequests == |Filter(mine, HasStatus(Delivered))|
      && s.totalItems == TotalItems(mine)
      && s.itemsByType == TypeBuckets(mine)
    ensures s.pendingRequests + s.acceptedRequests + s.pickedUpRequests + s.completedRequests <= s.totalRequests
    ensures SumCounts(s.itemsByType) == s.totalRequests && SumBucketItems(s.itemsByType) == s.totalItems
    ensures forall i :: 0 <= i < |s.itemsByType| ==> s.itemsByType[i].count <= s.totalRequests
  {
    var mine := DonationsByNgo(ds, ngoId);
    var byType := DonationStatsByType(mine);
    s := NgoStatistics(|mine|,
                       |Filter(mine, HasStatus(Pending))|,
                       |Filter(mine, HasStatus(Accepted))|,
                       |Filter(mine, HasStatus(PickedUp))|,
                       |Filter(mine, HasStatus(Delivered))|,
                       TotalItems(mine),
                       byType);
    StatusCountsBounded(mine);
  }

  function StatusNamed(filter: string): Donation -> bool {
    (d: Donation) => StatusName(d.status) == filter
  }

  /** `filterRequests`: the NGO's requests, narrowed to one status unless the filter is "all". */
  function FilterRequests(ds: seq<Donation>, ngoId: int, filter: string): (r: seq<Donation>)
    ensures filter == "all" ==> r == DonationsByNgo(ds, ngoId)
    ensures forall i :: 0 <= i < |r| ==>
      r[i] in ds && r[i].data.ngoId == Some(ngoId) && (filter == "all" || StatusName(r[i].status) == filter)
  {
    var mine := DonationsByNgo(ds, ngoId);
    if filter != "all" then Filter(mine, StatusNamed(filter)) else mine
  }

  function RequestShown(ngoId: int, filter: string): Donation -> bool {
    (d: Donation) => d.data.ngoId == Some(ngoId) && (filter == "all" || StatusName(d.status) == filter)
  }

  /** The two-step filter is one order-keeping filter by "addressed to this NGO
      and, unless "all", in the chosen status". */
  lemma FilterRequestsIsOneFilter(ds: seq<Donation>, ngoId: int, filter: string)
    ensures FilterRequests(ds, ngoId, filter) == Filter(ds, RequestShown(ngoId, filter))
  {
    if filter == "all" {
      FilterAgrees(ds, ByNgo(ngoId), RequestShown(ngoId, filter));
    } else {
      FilterFilter(ds, ByNgo(ngoId), StatusNamed(filter), RequestShown(ngoId, filter));
    }
  }

  /** Choosing a status's own name in the filter shows exactly the NGO's requests
      in that status. */
  lemma FilterRequestsByStatus(ds: seq<Donation>, ngoId: int, s: Status)
    ensures FilterRequests(ds, ngoId, StatusName(s)) == Filter(DonationsByNgo(ds, ngoId), HasStatus(s))
  {
    StatusNameInjective(s, s);
    var mine := DonationsByNgo(ds, ngoId);
    forall i | 0 <= i < |mine|
      ensures StatusNamed(StatusName(s))(mine[i]) == HasStatus(s)(mine[i])
    {
      StatusNameInjective(mine[i].status, s);
    }
    FilterAgrees(mine, StatusNamed(StatusName(s)), HasStatus(s));
  }
}
