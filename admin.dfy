/** The admin pages (`AdminManager`): NGO verification, revocation and removal,
    the NGO list and its filter, the donation badge and the recent-activity feed. */
module AdminManager {
  import opened Wrappers
  import opened Seqs
  import opened Records
  import opened Lifecycle
  import opened Storage
  import opened Queries

  /** `verifyNgo`: once confirmed, `updateUser(id, { verified: true })`. */
  method VerifyNgo(store: StorageManager, id: int, confirmed: bool)
    requires store.Valid()
    modifies store
    ensures store.Valid()
    ensures confirmed ==>
      (store.users == PatchUsers(old(store.users), id, SetVerified(true))
       && store.donations == old(store.donations) && store.donationIdCounter == old(store.donationIdCounter))
    ensures !confirmed ==> unchanged(store)
  {
    if confirmed {
      var _ := store.UpdateUser(id, SetVerified(true));
    }
  }

  /** `revokeNgoVerification`: once confirmed, `updateUser(id, { verified: false })`. */
  method RevokeNgoVerification(store: StorageManager, id: int, confirmed: bool)
    requires store.Valid()
    modifies store
    ensures store.Valid()
    ensures confirmed ==>
      (store.users == PatchUsers(old(store.users), id, SetVerified(false))
       && store.donations == old(store.donations) && store.donationIdCounter == old(store.donationIdCounter))
    ensures !confirmed ==> unchanged(store)
  {
    if confirmed {
      var _ := store.UpdateUser(id, SetVerified(false));
    }
  }

  /** The `{ verified: b }` patch sets `verified` on the users with that id and
      touches nothing else. */
  lemma SetVerifiedEffect(users: seq<User>, id: int, b: bool, i: int)
    requires 0 <= i < |users|
    ensures var after := PatchUsers(users, id, SetVerified(b));
      && |after| == |users|
      && (users[i].id == id ==>
            after[i].data.verified == b && after[i].id == id && after[i].createdAt == users[i].createdAt
            && after[i].data == users[i].data.(verified := b))
      && (users[i].id != id ==> after[i] == users[i])
  {
  }

  function NotId(id: int): User -> bool {
    (u: User) => u.id != id
  }

  /** `rejectNgo`: once confirmed, the users collection is overwritten without the
      user with that id; the reason asked for is not stored. */
  method RejectNgo(store: StorageManager, id: int, answer: Option<string>, confirmed: bool)
    requires store.Valid()
    modifies store
    ensures store.Valid()
    ensures confirmed ==>
      (store.users == Filter(old(store.users), NotId(id))
       && store.donations == old(store.donations) && store.donationIdCounter == old(store.donationIdCounter))
    ensures !confirmed ==> unchanged(store)
  {
    if confirmed {
      FilterKeepsUsersWellFormed(store.users, store.clock, NotId(id));
      store.users := Filter(store.users, NotId(id));
    }
  }

  /** With distinct ids, rejecting the user at index `k` removes that user and
      no other, and keeps the rest in order. */
  lemma RejectRemovesExactlyOne(users: seq<User>, k: int)
    requires UniqueIds(users)
    requires 0 <= k < |users|
    ensures Filter(users, NotId(users[k].id)) == users[..k] + users[k + 1..]
    ensures |Filter(users, NotId(users[k].id))| == |users| - 1
  {
    var id := users[k].id;
    var before, after := users[..k], users[k + 1..];
    assert users == before + [users[k]] + after;
    forall i | 0 <= i < |before|
      ensures NotId(id)(before[i])
    {
      assert before[i] == users[i];
    }
    forall i | 0 <= i < |after|
      ensures NotId(id)(after[i])
    {
      assert after[i] == users[k + 1 + i];
    }
    FilterDropsOne(before, users[k], after, NotId(id));
  }

  /** Rejecting an id nobody has leaves the users as they are. */
  lemma RejectUnknownIsNoop(users: seq<User>, id: int)
    requires forall i :: 0 <= i < |users| ==> users[i].id != id
    ensures Filter(users, NotId(id)) == users
  {
    FilterKeepsAll(users, NotId(id));
  }

  /** The admin page's `clearAllData`: after both confirmations, the store's
      `clearAllData`; otherwise nothing changes. */
  method ClearAllData(store: StorageManager, confirmed: bool, reconfirmed: bool, now: nat)
    requires store.Valid() && store.clock <= now
    modifies store
    ensures store.Valid()
    ensures confirmed && reconfirmed ==>
      (store.users == SeedUsers(now) && store.donations == [] && store.donationIdCounter == 1)
    ensures !(confirmed && reconfirmed) ==> unchanged(store)
  {
    if confirmed {
      if reconfirmed {
        store.ClearAllData(now);
      }
    }
  }

  /** `loadNgoVerification`: every NGO, in store order. */
  function NgoVerificationList(users: seq<User>): (r: seq<User>)
    ensures forall i :: 0 <= i < |r| ==> r[i] in users && r[i].data.role == Ngo
    ensures forall i :: 0 <= i < |users| && users[i].data.role == Ngo ==> users[i] in r
  {
    Filter(users, IsNgoUser)
  }

  function IsVerified(u: User): bool {
    u.data.verified
  }

  function IsUnverified(u: User): bool {
    !u.data.verified
  }

  /** `filterNgos`: the NGOs narrowed by the verification select. "pending" gives
      the unverified NGOs, "verified" the verified ones, "rejected" nobody
      (rejected NGOs are removed), and any other value every NGO. */
  function FilterNgos(users: seq<User>, filter: string): (r: seq<User>)
    ensures filter == "pending" ==> r == PendingNgos(users)
    ensures filter == "verified" ==> r == VerifiedNgos(users)
    ensures filter == "rejected" ==> r == []
    ensures filter != "pending" && filter != "verified" && filter != "rejected" ==>
      r == Filter(users, IsNgoUser)
  {
    FilterFilter(users, IsNgoUser, IsUnverified, IsPendingNgo);
    FilterFilter(users, IsNgoUser, IsVerified, IsVerifiedNgo);
    var ngos := NgoVerificationList(users);
    if filter == "pending" then Filter(ngos, IsUnverified)
    else if filter == "verified" then Filter(ngos, IsVerified)
    else if filter == "rejected" then []
    else ngos
  }

  /** `getDonationStatusBadge`: the status whose badge is shown, None for the empty string. */
  function DonationStatusBadge(s: Status): (shown: Option<Status>)
    ensures shown.Some? <==> s in FlowSteps
    ensures shown.Some? ==> shown.value == s
  {
    match s
    case Pending => Some(Pending)
    case Accepted => Some(Accepted)
    case PickedUp => Some(PickedUp)
    case Delivered => Some(Delivered)
    case _ => None
  }

  /** The admin badge agrees with the request-card badge on the strip's
      statuses; off the strip it shows nothing where the other shows pending. */
  lemma BadgesAgreeOnStrip(s: Status)
    ensures s in FlowSteps ==> DonationStatusBadge(s) == Some(s)
    ensures s == Rejected || s == Cancelled ==> DonationStatusBadge(s).None?
  {
  }

  // ---------------------------------------------------------------- recent activity

  datatype ActivityKind = DonationEntry | UserEntry

  /** One feed entry: what it is about, the record's id, when it happened and its status label. */
  datatype Activity = Activity(kind: ActivityKind, subject: int, timestamp: nat, status: string)

  function DonationActivity(d: Donation): Activity {
    Activity(DonationEntry, d.id, d.createdAt, StatusName(d.status))
  }

  function UserActivity(u: User): Activity {
    Activity(UserEntry, u.id, u.createdAt, if u.data.verified then "verified" else "pending")
  }

  function DonationActivities(ds: seq<Donation>): (r: seq<Activity>)
    ensures |r| == |ds| && forall i :: 0 <= i < |ds| ==> r[i] == DonationActivity(ds[i])
  {
    seq(|ds|, i requires 0 <= i < |ds| => DonationActivity(ds[i]))
  }

  function UserActivities(users: seq<User>): (r: seq<Activity>)
    ensures |r| == |users| && forall i :: 0 <= i < |users| ==> r[i] == UserActivity(users[i])
  {
    seq(|users|, i requires 0 <= i < |users| => UserActivity(users[i]))
  }

  /** `s.slice(-n)` for a positive `n`: the last `n` elements, or all of them. */
  function TakeLast<T>(s: seq<T>, n: nat): (r: seq<T>)
    ensures |r| == if n < |s| then n else |s|
    ensures r == s[|s| - |r|..]
  {
    if n < |s| then s[|s| - n..] else s
  }

  function Timestamp(a: Activity): int {
    a.timestamp
  }

  const ActivityDonations: nat := 10
  const ActivityUsers: nat := 10
  const ActivityShown: nat := 5

  /** The entries the feed gathers before sorting: the first ten donations, then
      the last ten users. */
  function GatheredActivities(ds: seq<Donation>, users: seq<User>): (r: seq<Activity>)
    ensures var first, last := Take(ds, ActivityDonations), TakeLast(users, ActivityUsers);
      && |r| == |first| + |last|
      && (forall i :: 0 <= i < |first| ==> r[i] == DonationActivity(ds[i]))
      && (forall k :: |users| - |last| <= k < |users| ==> r[|first| + k - (|users| - |last|)] == UserActivity(users[k]))
  {
    var first, last := Take(ds, ActivityDonations), TakeLast(users, ActivityUsers);
    var head, tail := DonationActivities(first), UserActivities(last);
    assert forall k :: |users| - |last| <= k < |users| ==> last[k - (|users| - |last|)] == users[k];
    head + tail
  }

  /** `loadRecentActivity`: the two `forEach` pushes, the sort newest first and
      the first five. */
  method RecentActivity(ds: seq<Donation>, users: seq<User>) returns (shown: seq<Activity>)
    ensures shown == Take(SortDesc(GatheredActivities(ds, users), Timestamp), ActivityShown)
  {
    var activities: seq<Activity> := [];
    var firstDonations := Take(ds, ActivityDonations);
    var i := 0;
    while i < |firstDonations|
      invariant 0 <= i <= |firstDonations|
      invariant activities == DonationActivities(firstDonations[..i])
    {
      activities := activities + [DonationActivity(firstDonations[i])];
      i := i + 1;
    }
    assert firstDonations[..i] == firstDonations;
    var lastUsers := TakeLast(users, ActivityUsers);
    var j := 0;
    while j < |lastUsers|
      invariant 0 <= j <= |lastUsers|
      invariant activities == DonationActivities(firstDonations) + UserActivities(lastUsers[..j])
    {
      activities := activities + [UserActivity(lastUsers[j])];
      j := j + 1;
    }
    assert lastUsers[..j] == lastUsers;
    activities := SortDesc(activities, Timestamp);
    shown := Take(activities, ActivityShown);
  }

  /** The feed shows at most five entries, newest first, each from one of the
      first ten donations or the last ten users, and none it leaves out is newer
      than one it shows. */
  lemma RecentActivityShape(ds: seq<Donation>, users: seq<User>)
    ensures var gathered := GatheredActivities(ds, users);
      var sorted := SortDesc(gathered, Timestamp);
      var shown := Take(sorted, ActivityShown);
      && |shown| <= ActivityShown
      && |gathered| <= ActivityDonations + ActivityUsers
      && SortedDesc(shown, Timestamp)
      && (forall i :: 0 <= i < |shown| ==>
            (exists k :: 0 <= k < |ds| && k < ActivityDonations && shown[i] == DonationActivity(ds[k]))
            || (exists k :: 0 <= k < |users| && |users| - ActivityUsers <= k && shown[i] == UserActivity(users[k])))
      && (forall i, j :: 0 <= i < |shown| && |shown| <= j < |sorted| ==> shown[i].timestamp >= sorted[j].timestamp)
  {
    var gathered := GatheredActivities(ds, users);
    var sorted := SortDesc(gathered, Timestamp);
    var shown := Take(sorted, ActivityShown);
    SortDescSorted(gathered, Timestamp);
    forall i | 0 <= i < |shown|
      ensures (exists k :: 0 <= k < |ds| && k < ActivityDonations && shown[i] == DonationActivity(ds[k]))
           || (exists k :: 0 <= k < |users| && |users| - ActivityUsers <= k && shown[i] == UserActivity(users[k]))
    {
      assert shown[i] == sorted[i];
      assert sorted[i] in multiset(gathered);
      var m :| 0 <= m < |gathered| && gathered[m] == shown[i];
      GatheredFrom(ds, users, m);
    }
    forall i, j | 0 <= i < |shown| && |shown| <= j < |sorted|
      ensures shown[i].timestamp >= sorted[j].timestamp
    {
      assert Timestamp(sorted[i]) >= Timestamp(sorted[j]);
    }
  }

  /** Every gathered entry comes from one of the first ten donations or one of
      the last ten users. */
  lemma GatheredFrom(ds: seq<Donation>, users: seq<User>, m: int)
    requires 0 <= m < |GatheredActivities(ds, users)|
    ensures var g := GatheredActivities(ds, users);
      || (exists k :: 0 <= k < |ds| && k < ActivityDonations && g[m] == DonationActivity(ds[k]))
      || (exists k :: 0 <= k < |users| && |users| - ActivityUsers <= k && g[m] == UserActivity(users[k]))
  {
    var g := GatheredActivities(ds, users);
    var first, last := Take(ds, ActivityDonations), TakeLast(users, ActivityUsers);
    if m < |first| {
      assert m < |ds| && m < ActivityDonations;
      assert g[m] == DonationActivity(ds[m]);
    } else {
      var k := |users| - |last| + (m - |first|);
      assert |users| - |last| <= k < |users| && |users| - ActivityUsers <= k;
      assert |first| + k - (|users| - |last|) == m;
      assert g[m] == UserActivity(users[k]);
    }
  }
}
