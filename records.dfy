/** The two record kinds the store keeps, and the partial updates merged into them. */
module Records {
  import opened Wrappers

  datatype Role = Donor | Ngo | Admin

  datatype Status = Pending | Accepted | PickedUp | Delivered | Rejected | Cancelled

  /** The string a status has in the stored records and in the status filter's options. */
  function StatusName(s: Status): string {
    match s
    case Pending => "pending"
    case Accepted => "accepted"
    case PickedUp => "picked_up"
    case Delivered => "delivered"
    case Rejected => "rejected"
    case Cancelled => "cancelled"
  }

  /** Distinct statuses have distinct names, and none is named "all". */
  lemma StatusNameInjective(s: Status, t: Status)
    ensures StatusName(s) == StatusName(t) ==> s == t
    ensures StatusName(s) != "all"
  {
  }

  datatype Organization = Organization(name: string, address: string, phone: string)

  /** What a user record holds besides the id and the creation stamp;
      `organization` stands for the three `organization*` fields. */
  datatype UserData = UserData(
    name: string,
    email: string,
    password: string,
    role: Role,
    verified: bool,
    organization: Option<Organization>)

  datatype User = User(id: int, data: UserData, createdAt: nat) {

    /** `{ ...user, ...patch }`: each field the patch carries replaces the user's. */
    function Patched(p: UserPatch): (u: User)
      ensures u.id == id && u.createdAt == createdAt && u.data.organization == data.organization
      ensures u.data.name == p.name.GetOr(data.name) && u.data.email == p.email.GetOr(data.email)
      ensures u.data.password == p.password.GetOr(data.password) && u.data.role == p.role.GetOr(data.role)
      ensures u.data.verified == p.verified.GetOr(data.verified)
    {
      User(id,
           UserData(p.name.GetOr(data.name),
                    p.email.GetOr(data.email),
                    p.password.GetOr(data.password),
                    p.role.GetOr(data.role),
                    p.verified.GetOr(data.verified),
                    data.organization),
           createdAt)
    }
  }

  datatype UserPatch = UserPatch(
    name: Option<string>,
    email: Option<string>,
    password: Option<string>,
    role: Option<Role>,
    verified: Option<bool>)

  /** The patch `{ verified: b }` that the admin pages send. */
  function SetVerified(b: bool): UserPatch {
    UserPatch(None, None, None, None, Some(b))
  }

  /** The fields of a donation as the donation form collects them. `ngoId` and
      `quantity` are `parseInt` results (None: NaN); `ngoName` is None when it
      was `undefined`. */
  datatype DonationData = DonationData(
    donorId: int,
    donorName: string,
    donorEmail: string,
    ngoId: Option<int>,
    ngoName: Option<string>,
    itemType: string,
    itemName: string,
    quantity: Option<int>,
    description: string,
    pickupAddress: string,
    pickupDate: string,
    pickupTime: string,
    contactPhone: string)

  datatype Donation = Donation(
    id: int,
    data: DonationData,
    status: Status,
    rejectionReason: Option<string>,
    createdAt: nat,
    updatedAt: nat) {

    /** `{ ...donation, ...patch, updatedAt: now }`. */
    function Patched(p: DonationPatch, now: nat): (d: Donation)
      ensures d.id == id && d.data == data && d.createdAt == createdAt && d.updatedAt == now
      ensures d.status == p.status.GetOr(status)
      ensures d.rejectionReason == (if p.rejectionReason.Some? then p.rejectionReason else rejectionReason)
    {
      Donation(id, data, p.status.GetOr(status), if p.rejectionReason.Some? then p.rejectionReason else rejectionReason, createdAt, now)
    }
  }

  datatype DonationPatch = DonationPatch(status: Option<Status>, rejectionReason: Option<string>)

  /** The patch `{ status: s }`. */
  function SetStatus(s: Status): DonationPatch {
    DonationPatch(Some(s), None)
  }

  /** `d.quantity || 0`: a missing or NaN quantity counts as 0. */
  function QuantityOrZero(d: Donation): int {
    d.data.quantity.GetOr(0)
  }

  /** `donations.reduce((sum, d) => sum + (d.quantity || 0), 0)`. */
  function TotalItems(ds: seq<Donation>): int {
    if ds == [] then 0 else QuantityOrZero(ds[0]) + TotalItems(ds[1..])
  }

  lemma {:induction false} TotalItemsAppend(a: seq<Donation>, b: seq<Donation>)
    ensures TotalItems(a + b) == TotalItems(a) + TotalItems(b)
  {
    if a == [] {
      assert a + b == b;
    } else {
      assert (a + b)[0] == a[0] && (a + b)[1..] == a[1..] + b;
      TotalItemsAppend(a[1..], b);
    }
  }
}
