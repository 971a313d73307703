/** The record store (`StorageManager`): the users and donations collections and
    the donation id counter, held as sequences and an integer in place of the
    JSON blobs under the keys `users`, `donations` and `donationIdCounter`. */
module Storage {
  import opened Wrappers
  import opened Seqs
  import opened Records

  /** The four demo users that `seedDemoUsers` writes, every one stamped `now`:
      ids 1 to 4 for the admin, the donor, a verified NGO and an unverified NGO,
      with distinct emails. */
  function SeedUsers(now: nat): (s: seq<User>)
    ensures |s| == 4 && forall i :: 0 <= i < 4 ==> s[i].id == i + 1 && s[i].createdAt == now
    ensures s[0].data.role == Admin && s[1].data.role == Donor
    ensures s[2].data.role == Ngo && s[2].data.verified
    ensures s[3].data.role == Ngo && !s[3].data.verified
    ensures forall i, j :: 0 <= i < j < 4 ==> s[i].data.email != s[j].data.email
    ensures UsersWellFormed(s, now)
  {
    [ User(1, UserData("Admin User", "admin@demo.com", "admin123", Admin, true, None), now),
      User(2, UserData("Donor User", "donor@demo.com", "donor123", Donor, true, None), now),
      User(3, UserData("NGO Organization", "ngo@demo.com", "ngo123", Ngo, true,
                       Some(Organization("Helping Hands NGO", "123 Charity Street, City, State 12345", "+1-234-567-8900"))), now),
      User(4, UserData("Test NGO", "testngo@demo.com", "test123", Ngo, false,
                       Some(Organization("Test Foundation", "456 Test Avenue, City, State 67890", "+1-987-654-3210"))), now) ]
  }

  function HasEmail(email: string): User -> bool {
    (u: User) => u.data.email == email
  }

  function HasId(id: int): User -> bool {
    (u: User) => u.id == id
  }

  function HasDonationId(id: int): Donation -> bool {
    (d: Donation) => d.id == id
  }

  /** `getUserByEmail`: the first user whose email is exactly `email`. */
  function FindUserByEmail(users: seq<User>, email: string): (r: Option<User>)
    ensures r.Some? ==> r.value in users && r.value.data.email == email
    ensures r.None? <==> forall i :: 0 <= i < |users| ==> users[i].data.email != email
    ensures r.Some? ==> exists i :: (0 <= i < |users| && users[i] == r.value
      && forall j :: 0 <= j < i ==> users[j].data.email != email)
  {
    Find(users, HasEmail(email))
  }

  /** `getUserById`: the first user with id `id`. */
  function FindUserById(users: seq<User>, id: int): (r: Option<User>)
    ensures r.Some? ==> r.value in users && r.value.id == id
    ensures r.None? <==> forall i :: 0 <= i < |users| ==> users[i].id != id
    ensures r.Some? ==> exists i :: (0 <= i < |users| && users[i] == r.value
      && forall j :: 0 <= j < i ==> users[j].id != id)
  {
    Find(users, HasId(id))
  }

  /** `getDonationById`: the first donation with id `id`. */
  function FindDonationById(ds: seq<Donation>, id: int): (r: Option<Donation>)
    ensures r.Some? ==> r.value in ds && r.value.id == id
    ensures r.None? <==> forall i :: 0 <= i < |ds| ==> ds[i].id != id
    ensures r.Some? ==> exists i :: (0 <= i < |ds| && ds[i] == r.value
      && forall j :: 0 <= j < i ==> ds[j].id != id)
  {
    Find(ds, HasDonationId(id))
  }

  /** `Math.max(...users.map(u => u.id))`. */
  function MaxUserId(users: seq<User>): (m: int)
    requires |users| > 0
    ensures forall i :: 0 <= i < |users| ==> users[i].id <= m
    ensures exists i :: 0 <= i < |users| && users[i].id == m
  {
    if |users| == 1 then users[0].id
    else
      var m := MaxUserId(users[1..]);
      if users[0].id > m then users[0].id else m
  }

  /** The id `addUser` gives a new user: 1 on an empty list, else the largest id plus one. */
  function NextUserId(users: seq<User>): (id: int)
    ensures |users| == 0 ==> id == 1
    ensures |users| > 0 ==> exists i :: 0 <= i < |users| && users[i].id == id - 1
    ensures forall i :: 0 <= i < |users| ==> users[i].id < id
    ensures (forall i :: 0 <= i < |users| ==> users[i].id >= 0) ==> id >= 1
  {
    if |users| > 0 then MaxUserId(users) + 1 else 1
  }

  ghost predicate UniqueIds(users: seq<User>) {
    forall i, j :: 0 <= i < j < |users| ==> users[i].id != users[j].id
  }

  /** What the store keeps true of its users: positive, distinct ids, stamps not after `clock`. */
  ghost predicate UsersWellFormed(users: seq<User>, clock: nat) {
    && (forall i :: 0 <= i < |users| ==> users[i].id >= 1 && users[i].createdAt <= clock)
    && UniqueIds(users)
  }

  /** What the store keeps true of its donations: ids positive, below the counter and
      increasing along the list (so never reused), `createdAt <= updatedAt <= clock`. */
  ghost predicate DonationsWellFormed(ds: seq<Donation>, counter: int, clock: nat) {
    && counter >= 1
    && (forall i :: 0 <= i < |ds| ==> 1 <= ds[i].id < counter)
    && (forall i :: 0 <= i < |ds| ==> ds[i].createdAt <= ds[i].updatedAt <= clock)
    && (forall i, j :: 0 <= i < j < |ds| ==> ds[i].id < ds[j].id)
  }

  /** The users after `updateUser(id, p)`: the user with that id merged with `p`. */
  function PatchUsers(users: seq<User>, id: int, p: UserPatch): (r: seq<User>)
    ensures |r| == |users|
    ensures forall i :: 0 <= i < |r| ==> r[i].id == users[i].id && r[i].createdAt == users[i].createdAt
    ensures forall i :: 0 <= i < |r| && users[i].id != id ==> r[i] == users[i]
    ensures forall i :: 0 <= i < |r| && users[i].id == id ==> r[i] == users[i].Patched(p)
    ensures UniqueIds(users) ==> UniqueIds(r)
  {
    seq(|users|, i requires 0 <= i < |users| => if users[i].id == id then users[i].Patched(p) else users[i])
  }

  /** The donations after `updateDonation(id, p)` at time `now`. */
  function PatchDonations(ds: seq<Donation>, id: int, p: DonationPatch, now: nat): (r: seq<Donation>)
    ensures |r| == |ds|
    ensures forall i :: 0 <= i < |r| ==> r[i].id == ds[i].id && r[i].data == ds[i].data && r[i].createdAt == ds[i].createdAt
    ensures forall i :: 0 <= i < |r| && ds[i].id == id ==> r[i] == ds[i].Patched(p, now)
    ensures forall i :: 0 <= i < |r| && ds[i].id == id ==>
      && r[i].status == p.status.GetOr(ds[i].status) && r[i].updatedAt == now
      && r[i].rejectionReason == (if p.rejectionReason.Some? then p.rejectionReason else ds[i].rejectionReason)
    ensures forall i :: 0 <= i < |r| && ds[i].id != id ==> r[i] == ds[i]
  {
    seq(|ds|, i requires 0 <= i < |ds| => if ds[i].id == id then ds[i].Patched(p, now) else ds[i])
  }

  /** An update for an id nobody has changes nothing. */
  lemma PatchUsersAbsent(users: seq<User>, id: int, p: UserPatch)
    requires forall i :: 0 <= i < |users| ==> users[i].id != id
    ensures PatchUsers(users, id, p) == users
  {
  }

  /** Removal by filtering keeps the store's user invariant. */
  lemma {:induction false} FilterKeepsUsersWellFormed(users: seq<User>, clock: nat, p: User -> bool)
    requires UsersWellFormed(users, clock)
    ensures UsersWellFormed(Filter(users, p), clock)
  {
    if users != [] {
      var tail := users[1..];
      FilterKeepsUsersWellFormed(tail, clock, p);
      forall u | u in tail
        ensures u.id != users[0].id
      {
        var k :| 0 <= k < |tail| && tail[k] == u;
        assert users[k + 1] == u;
      }
      assert Filter(users, p) == (if p(users[0]) then [users[0]] else []) + Filter(tail, p);
    }
  }

  class StorageManager {
    var users: seq<User>
    var donations: seq<Donation>
    var donationIdCounter: int
    /** The latest timestamp the store has written. */
    ghost var clock: nat

    ghost predicate Valid()
      reads this
    {
      UsersWellFormed(users, clock) && DonationsWellFormed(donations, donationIdCounter, clock)
    }

    /** `initializeData` on empty storage: the demo users, no donations, counter 1. */
    constructor(now: nat)
      ensures Valid()
      ensures users == SeedUsers(now) && donations == [] && donationIdCounter == 1 && clock == now
    {
      users := SeedUsers(now);
      donations := [];
      donationIdCounter := 1;
      clock := now;
    }

    /** `addUser`: appends the user with the next id, stamped `now`. */
    method AddUser(data: UserData, now: nat) returns (user: User)
      requires Valid() && clock <= now
      modifies this
      ensures Valid() && clock == now
      ensures user == User(NextUserId(old(users)), data, now)
      ensures users == old(users) + [user]
      ensures donations == old(donations) && donationIdCounter == old(donationIdCounter)
    {
      var id := if |users| > 0 then MaxUserId(users) + 1 else 1;
      user := User(id, data, now);
      users := users + [user];
      clock := now;
    }

    /** `updateUser`: merges `p` into the user with that id; None when there is none. */
    method UpdateUser(id: int, p: UserPatch) returns (r: Option<User>)
      requires Valid()
      modifies this
      ensures Valid()
      ensures users == PatchUsers(old(users), id, p)
      ensures r.None? <==> forall i :: 0 <= i < |old(users)| ==> old(users)[i].id != id
      ensures r.Some? ==> r == Some(FindUserById(old(users), id).value.Patched(p)) && r.value in users
      ensures donations == old(donations) && donationIdCounter == old(donationIdCounter) && clock == old(clock)
    {
      var index := FirstIndex(users, HasId(id));
      if index != -1 {
        ghost var before := users;
        users := users[index := users[index].Patched(p)];
        r := Some(users[index]);
        forall i | 0 <= i < |before| && i != index
          ensures before[i].id != id
        {
          assert before[index].id == id;
        }
        assert users == PatchUsers(before, id, p);
        FindIsFirst(before, HasId(id), index);
      } else {
        r := None;
        PatchUsersAbsent(users, id, p);
      }
    }

    /** `addDonation`: appends the donation with the counter as id, status pending,
        both stamps `now`, and bumps the counter by one. */
    method AddDonation(data: DonationData, now: nat) returns (d: Donation)
      requires Valid() && clock <= now
      modifies this
      ensures Valid() && clock == now
      ensures d == Donation(old(donationIdCounter), data, Pending, None, now, now)
      ensures donations == old(donations) + [d]
      ensures donationIdCounter == old(donationIdCounter) + 1
      ensures users == old(users)
    {
      var counter := donationIdCounter;
      d := Donation(counter, data, Pending, None, now, now);
      donations := donations + [d];
      donationIdCounter := counter + 1;
      clock := now;
    }

    /** `updateDonation`: merges `p` into the donation with that id and stamps
        `updatedAt`, whatever its status was; None when there is none. */
    method UpdateDonation(id: int, p: DonationPatch, now: nat) returns (r: Option<Donation>)
      requires Valid() && clock <= now
      modifies this
      ensures Valid() && clock == now
      ensures donations == PatchDonations(old(donations), id, p, now)
      ensures r.None? <==> forall i :: 0 <= i < |old(donations)| ==> old(donations)[i].id != id
      ensures r.Some? ==> r.value in donations && r.value.id == id && r.value.updatedAt == now
      ensures forall i :: 0 <= i < |donations| ==> donations[i].updatedAt >= old(donations[i].updatedAt)
      ensures users == old(users) && donationIdCounter == old(donationIdCounter)
    {
      var index := FirstIndex(donations, HasDonationId(id));
      ghost var before := donations;
      if index != -1 {
        donations := donations[index := donations[index].Patched(p, now)];
        r := Some(donations[index]);
        forall i | 0 <= i < |before| && i != index
          ensures before[i].id != id
        {
          assert before[index].id == id;
        }
      } else {
        r := None;
      }
      assert donations == PatchDonations(before, id, p, now);
      clock := now;
    }

    /** `clearAllData`: the demo users again, no donations, the counter back at 1. */
    method ClearAllData(now: nat)
      requires Valid() && clock <= now
      modifies this
      ensures Valid()
      ensures users == SeedUsers(now) && donations == [] && donationIdCounter == 1 && clock == now
    {
      users := SeedUsers(now);
      donations := [];
      donationIdCounter := 1;
      clock := now;
    }
  }
}
