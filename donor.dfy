/** The donor pages (`DonorManager`): the donation form and its validation,
    the buttons on a donation card, cancelling, and the donor's statistics
    and status filter. The signed-in donor is a parameter where the source
    reads it from the session. */
module DonorManager {
  import opened Wrappers
  import opened Seqs
  import opened Records
  import opened Lifecycle
  import opened Storage
  import opened Queries

  /** The donation form's fields; `ngo` and `quantity` are already through
      `parseInt` (None: NaN, as from an empty field). */
  datatype DonationForm = DonationForm(
    ngo: Option<int>,
    itemType: string,
    itemName: string,
    quantity: Option<int>,
    description: string,
    pickupAddress: string,
    pickupDate: string,
    pickupTime: string,
    contactPhone: string)

  /** A number is falsy when it is NaN or 0. */
  predicate Falsy(n: Option<int>) {
    n.None? || n.value == 0
  }

  /** Every field the form requires is truthy. */
  predicate RequiredPresent(data: DonationData) {
    && !Falsy(data.ngoId) && data.itemType != "" && data.itemName != "" && !Falsy(data.quantity)
    && data.pickupAddress != "" && data.pickupDate != "" && data.pickupTime != "" && data.contactPhone != ""
  }

  /** `validateDonationData`: None when the data may be stored, else the message shown. */
  function ValidateDonationData(data: DonationData): (r: Option<string>)
    ensures r == Some("Please fill in all required fields") <==> !RequiredPresent(data)
    ensures r == Some("Quantity must be at least 1") <==> RequiredPresent(data) && data.quantity.value < 0
    ensures r.None? <==> RequiredPresent(data) && data.quantity.value >= 1
  {
    if Falsy(data.ngoId) || data.itemType == "" || data.itemName == "" || Falsy(data.quantity)
       || data.pickupAddress == "" || data.pickupDate == "" || data.pickupTime == "" || data.contactPhone == "" then
      Some("Please fill in all required fields")
    else if data.quantity.value < 1 then Some("Quantity must be at least 1")
    else None
  }

  /** A stored donation names an NGO and has a positive quantity. */
  lemma AcceptedDataIsComplete(data: DonationData)
    requires ValidateDonationData(data).None?
    ensures data.ngoId.Some? && data.ngoId.value != 0
    ensures data.quantity.Some? && data.quantity.value >= 1
    ensures data.itemName != "" && data.pickupAddress != "" && data.contactPhone != ""
  {
  }

  /** `getNgoName`: the organisation name of the user with that id, `Unknown NGO`
      when there is none, and None (`undefined`) for a user without an organisation. */
  function GetNgoName(users: seq<User>, ngoId: Option<int>): (r: Option<string>)
    ensures (ngoId.None? || FindUserById(users, ngoId.value).None?) ==> r == Some("Unknown NGO")
    ensures ngoId.Some? && FindUserById(users, ngoId.value).Some? ==>
      var u := FindUserById(users, ngoId.value).value;
      r == (if u.data.organization.Some? then Some(u.data.organization.value.name) else None)
  {
    if ngoId.None? then Some("Unknown NGO")
    else
      match FindUserById(users, ngoId.value)
      case None => Some("Unknown NGO")
      case Some(ngo) => if ngo.data.organization.Some? then Some(ngo.data.organization.value.name) else None
  }

  /** With distinct ids, the name shown for a stored NGO's id is that NGO's
      organisation name. */
  lemma NgoNameOfUser(users: seq<User>, k: int)
    requires UniqueIds(users)
    requires 0 <= k < |users| && users[k].data.organization.Some?
    ensures GetNgoName(users, Some(users[k].id)) == Some(users[k].data.organization.value.name)
  {
    FindIsFirst(users, HasId(users[k].id), k);
  }

  /** The `donationData` the submit handler builds for donor `donor`. */
  function DonationDataFrom(donor: User, users: seq<User>, f: DonationForm): (data: DonationData)
    ensures data.donorId == donor.id && data.donorName == donor.data.name && data.donorEmail == donor.data.email
    ensures data.ngoId == f.ngo && data.ngoName == GetNgoName(users, f.ngo)
    ensures data.quantity == f.quantity && data.itemType == f.itemType && data.itemName == f.itemName
  {
    DonationData(donor.id, donor.data.name, donor.data.email, f.ngo, GetNgoName(users, f.ngo),
                 f.itemType, f.itemName, f.quantity, f.description, f.pickupAddress,
                 f.pickupDate, f.pickupTime, f.contactPhone)
  }

  /** The donation form's submit handler: the record is stored only when it
      passes validation, and then as a new pending donation of that donor. */
  method SubmitDonation(store: StorageManager, donor: User, f: DonationForm, now: nat) returns (r: Option<Donation>)
    requires store.Valid() && store.clock <= now
    modifies store
    ensures store.Valid()
    ensures var data := DonationDataFrom(donor, old(store.users), f);
      && (r.None? <==> ValidateDonationData(data).Some?)
      && (r.None? ==> unchanged(store))
      && (r.Some? ==> r.value == Donation(old(store.donationIdCounter), data, Pending, None, now, now)
                      && store.donations == old(store.donations) + [r.value]
                      && store.donationIdCounter == old(store.donationIdCounter) + 1
                      && store.users == old(store.users))
  {
    var data := DonationDataFrom(donor, store.users, f);
    if ValidateDonationData(data).Some? {
      return None;
    }
    var d := store.AddDonation(data, now);
    r := Some(d);
  }

  /** `getDonationActions`: cancel while pending, then "View Details". */
  method GetDonationActions(status: Status) returns (actions: seq<Action>)
    ensures |actions| >= 1 && actions[|actions| - 1] == ViewDetails
    ensures Cancel in actions <==> status == Pending
    ensures forall i :: 0 <= i < |actions| - 1 ==>
      Target(actions[i]).Some? && Edge(status, Target(actions[i]).value) && DonorOwns(Target(actions[i]).value)
    ensures forall t :: Edge(status, t) && DonorOwns(t) ==> ActionFor(t) in actions
    ensures forall i, j :: 0 <= i < j < |actions| ==> actions[i] != actions[j]
  {
    actions := [];
    if status == Pending {
      actions := actions + [Cancel];
    }
    actions := actions + [ViewDetails];
  }

  /** `cancelDonation`: once confirmed, status cancelled, whatever it was. */
  method CancelDonation(store: StorageManager, id: int, confirmed: bool, now: nat)
    requires store.Valid() && store.clock <= now
    modifies store
    ensures store.Valid()
    ensures confirmed ==>
      (store.donations == PatchDonations(old(store.donations), id, SetStatus(Cancelled), now)
       && store.users == old(store.users) && store.donationIdCounter == old(store.donationIdCounter))
    ensures !confirmed ==> unchanged(store)
  {
    if confirmed {
      var _ := store.UpdateDonation(id, SetStatus(Cancelled), now);
    }
  }

  datatype DonorStats = DonorStats(total: nat, pending: nat, completed: nat)

  /** The counters of the donor dashboard: only that donor's donations count. */
  function DonorDashboardStats(ds: seq<Donation>, donorId: int): (s: DonorStats)
    ensures s.total == |DonationsByDonor(ds, donorId)|
    ensures s.pending == |Filter(DonationsByDonor(ds, donorId), HasStatus(Pending))|
    ensures s.completed == |Filter(DonationsByDonor(ds, donorId), HasStatus(Delivered))|
    ensures s.pending + s.completed <= s.total
  {
    var mine := DonationsByDonor(ds, donorId);
    StatusCountsBounded(mine);
    DonorStats(|mine|, |Filter(mine, HasStatus(Pending))|, |Filter(mine, HasStatus(Delivered))|)
  }

  /** A donation from a different donor does not move the counters. */
  lemma OtherDonorsDoNotCount(ds: seq<Donation>, donorId: int, d: Donation)
    requires d.data.donorId != donorId
    ensures DonorDashboardStats(ds + [d], donorId) == DonorDashboardStats(ds, donorId)
  {
    FilterAppend(ds, [d], ByDonor(donorId));
    FilterSingleton(d, ByDonor(donorId));
    assert DonationsByDonor(ds + [d], donorId) == DonationsByDonor(ds, donorId);
  }

  function DonationShown(donorId: int, filter: string): Donation -> bool {
    (d: Donation) => d.data.donorId == donorId && (filter == "all" || StatusName(d.status) == filter)
  }

  /** `filterDonations`: the donor's donations, narrowed to one status unless the filter is "all". */
  function FilterDonations(ds: seq<Donation>, donorId: int, filter: string): (r: seq<Donation>)
    ensures filter == "all" ==> r == DonationsByDonor(ds, donorId)
    ensures forall i :: 0 <= i < |r| ==>
      r[i] in ds && r[i].data.donorId == donorId && (filter == "all" || StatusName(r[i].status) == filter)
  {
    var mine := DonationsByDonor(ds, donorId);
    if filter != "all" then Filter(mine, (d: Donation) => StatusName(d.status) == filter) else mine
  }

  /** The two-step filter is one order-keeping filter by "from this donor and,
      unless "all", in the chosen status". */
  lemma FilterDonationsIsOneFilter(ds: seq<Donation>, donorId: int, filter: string)
    ensures FilterDonations(ds, donorId, filter) == Filter(ds, DonationShown(donorId, filter))
  {
    if filter == "all" {
      FilterAgrees(ds, ByDonor(donorId), DonationShown(donorId, filter));
    } else {
      FilterFilter(ds, ByDonor(donorId), (d: Donation) => StatusName(d.status) == filter, DonationShown(donorId, filter));
    }
  }
}
