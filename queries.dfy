/** The read side of the record store: the selections, `getStats`,
    `getDonationStatsByType` and `getTopNgos`. Every query is a function of the
    two collections, which the store hands out whole (`getUsers`, `getDonations`). */
module Queries {
  import opened Wrappers
  import opened Seqs
  import opened Records
  import opened Storage

  function ByDonor(donorId: int): Donation -> bool {
    (d: Donation) => d.data.donorId == donorId
  }

  function ByNgo(ngoId: int): Donation -> bool {
    (d: Donation) => d.data.ngoId == Some(ngoId)
  }

  function HasStatus(s: Status): Donation -> bool {
    (d: Donation) => d.status == s
  }

  /** `getDonationsByDonor`: that donor's donations, in store order. */
  function DonationsByDonor(ds: seq<Donation>, donorId: int): (r: seq<Donation>)
    ensures forall i :: 0 <= i < |r| ==> r[i] in ds && r[i].data.donorId == donorId
    ensures forall i :: 0 <= i < |ds| && ds[i].data.donorId == donorId ==> ds[i] in r
  {
    Filter(ds, ByDonor(donorId))
  }

  /** `getDonationsByNgo`: the donations addressed to that NGO, in store order. */
  function DonationsByNgo(ds: seq<Donation>, ngoId: int): (r: seq<Donation>)
    ensures forall i :: 0 <= i < |r| ==> r[i] in ds && r[i].data.ngoId == Some(ngoId)
    ensures forall i :: 0 <= i < |ds| && ds[i].data.ngoId == Some(ngoId) ==> ds[i] in r
  {
    Filter(ds, ByNgo(ngoId))
  }

  lemma DonationsByNgoAppend(ds: seq<Donation>, d: Donation, ngoId: int)
    ensures DonationsByNgo(ds + [d], ngoId) == DonationsByNgo(ds, ngoId) + (if d.data.ngoId == Some(ngoId) then [d] else [])
  {
    FilterAppend(ds, [d], ByNgo(ngoId));
    FilterSingleton(d, ByNgo(ngoId));
  }

  predicate IsNgoUser(u: User) {
    u.data.role == Ngo
  }

  predicate IsVerifiedNgo(u: User) {
    u.data.role == Ngo && u.data.verified
  }

  predicate IsPendingNgo(u: User) {
    u.data.role == Ngo && !u.data.verified
  }

  /** `getVerifiedNgos`. */
  function VerifiedNgos(users: seq<User>): (r: seq<User>)
    ensures forall i :: 0 <= i < |r| ==> r[i] in users && r[i].data.role == Ngo && r[i].data.verified
    ensures forall i :: 0 <= i < |users| && IsVerifiedNgo(users[i]) ==> users[i] in r
  {
    Filter(users, IsVerifiedNgo)
  }

  /** `getPendingNgos`. */
  function PendingNgos(users: seq<User>): (r: seq<User>)
    ensures forall i :: 0 <= i < |r| ==> r[i] in users && r[i].data.role == Ngo && !r[i].data.verified
    ensures forall i :: 0 <= i < |users| && IsPendingNgo(users[i]) ==> users[i] in r
  {
    Filter(users, IsPendingNgo)
  }

  /** Verified and pending NGOs split the NGOs between them. */
  lemma NgoSelectionsPartition(users: seq<User>)
    ensures |Filter(users, IsNgoUser)| == |VerifiedNgos(users)| + |PendingNgos(users)|
    ensures forall u :: !(u in VerifiedNgos(users) && u in PendingNgos(users))
  {
    FilterSplit(users, IsNgoUser, IsVerifiedNgo, IsPendingNgo);
  }

  predicate IsDonorUser(u: User) {
    u.data.role == Donor
  }

  datatype Stats = Stats(
    totalUsers: nat,
    totalDonors: nat,
    totalNgos: nat,
    verifiedNgos: nat,
    pendingNgos: nat,
    totalDonations: nat,
    pendingDonations: nat,
    acceptedDonations: nat,
    pickedUpDonations: nat,
    completedDonations: nat,
    totalItems: int)

  /** `getStats`: the counts agree with each other, since every NGO is either
      verified or pending, donors and NGOs are distinct users, and the four
      counted statuses are distinct. */
  function GetStats(users: seq<User>, ds: seq<Donation>): (s: Stats)
    ensures s.totalUsers == |users| && s.totalDonations == |ds| && s.totalItems == TotalItems(ds)
    ensures s.totalDonors == |Filter(users, IsDonorUser)| && s.totalNgos == |Filter(users, IsNgoUser)|
    ensures s.pendingDonations == |Filter(ds, HasStatus(Pending))| && s.acceptedDonations == |Filter(ds, HasStatus(Accepted))|
    ensures s.pickedUpDonations == |Filter(ds, HasStatus(PickedUp))| && s.completedDonations == |Filter(ds, HasStatus(Delivered))|
    ensures s.totalNgos == s.verifiedNgos + s.pendingNgos
    ensures s.verifiedNgos == |VerifiedNgos(users)| && s.pendingNgos == |PendingNgos(users)|
    ensures s.totalDonors + s.totalNgos <= s.totalUsers
    ensures s.pendingDonations + s.acceptedDonations + s.pickedUpDonations + s.completedDonations <= s.totalDonations
  {
    NgoSelectionsPartition(users);
    RoleCountsBounded(users);
    StatusCountsBounded(ds);
    Stats(|users|,
          |Filter(users, IsDonorUser)|,
          |Filter(users, IsNgoUser)|,
          |Filter(users, IsVerifiedNgo)|,
          |Filter(users, IsPendingNgo)|,
          |ds|,
          |Filter(ds, HasStatus(Pending))|,
          |Filter(ds, HasStatus(Accepted))|,
          |Filter(ds, HasStatus(PickedUp))|,
          |Filter(ds, HasStatus(Delivered))|,
          TotalItems(ds))
  }

  lemma {:induction false} RoleCountsBounded(users: seq<User>)
    ensures |Filter(users, IsDonorUser)| + |Filter(users, IsNgoUser)| <= |users|
  {
    if users != [] {
      RoleCountsBounded(users[1..]);
    }
  }

  lemma {:induction false} StatusCountsBounded(ds: seq<Donation>)
    ensures |Filter(ds, HasStatus(Pending))| + |Filter(ds, HasStatus(Accepted))|
          + |Filter(ds, HasStatus(PickedUp))| + |Filter(ds, HasStatus(Delivered))| <= |ds|
  {
    if ds != [] {
      StatusCountsBounded(ds[1..]);
    }
  }

  /** Submitting a pending donation adds one to the donation and pending counts
      and its quantity to the item total; the other status counts stay. */
  lemma StatsAfterSubmission(users: seq<User>, ds: seq<Donation>, d: Donation)
    requires d.status == Pending
    ensures var before, after := GetStats(users, ds), GetStats(users, ds + [d]);
      && after.totalDonations == before.totalDonations + 1
      && after.pendingDonations == before.pendingDonations + 1
      && after.acceptedDonations == before.acceptedDonations
      && after.pickedUpDonations == before.pickedUpDonations
      && after.completedDonations == before.completedDonations
      && after.totalItems == before.totalItems + QuantityOrZero(d)
      && after.totalUsers == before.totalUsers
  {
    FilterAppend(ds, [d], HasStatus(Pending));
    FilterAppend(ds, [d], HasStatus(Accepted));
    FilterAppend(ds, [d], HasStatus(PickedUp));
    FilterAppend(ds, [d], HasStatus(Delivered));
    FilterSingleton(d, HasStatus(Pending));
    FilterSingleton(d, HasStatus(Accepted));
    FilterSingleton(d, HasStatus(PickedUp));
    FilterSingleton(d, HasStatus(Delivered));
    TotalItemsAppend(ds, [d]);
    assert [d][1..] == [];
  }

  // ---------------------------------------------------------------- by type

  datatype TypeBucket = TypeBucket(itemType: string, count: nat, items: int)

  /** `donation.itemType || 'other'`. */
  function TypeKey(d: Donation): string {
    if d.data.itemType == "" then "other" else d.data.itemType
  }

  function ForKey(key: string): TypeBucket -> bool {
    (b: TypeBucket) => b.itemType == key
  }

  function OfType(key: string): Donation -> bool {
    (d: Donation) => TypeKey(d) == key
  }

  /** One turn of the `forEach`: count `d` in its type's bucket, opening the bucket if needed. */
  function Tallied(b: seq<TypeBucket>, d: Donation): seq<TypeBucket> {
    var k := FirstIndex(b, ForKey(TypeKey(d)));
    if k == -1 then b + [TypeBucket(TypeKey(d), 1, QuantityOrZero(d))]
    else b[k := TypeBucket(b[k].itemType, b[k].count + 1, b[k].items + QuantityOrZero(d))]
  }

  /** The buckets once the `forEach` has seen `ds`, in the order their types were first met. */
  function TypeBuckets(ds: seq<Donation>): (b: seq<TypeBucket>)
    ensures |b| <= |ds|
    ensures b == [] <==> ds == []
    decreases |ds|
  {
    if ds == [] then [] else Tallied(TypeBuckets(ds[..|ds| - 1]), ds[|ds| - 1])
  }

  function SumCounts(b: seq<TypeBucket>): int {
    if b == [] then 0 else b[0].count + SumCounts(b[1..])
  }

  function SumBucketItems(b: seq<TypeBucket>): int {
    if b == [] then 0 else b[0].items + SumBucketItems(b[1..])
  }

  lemma {:induction false} BucketSumsAppend(b: seq<TypeBucket>, x: TypeBucket)
    ensures SumCounts(b + [x]) == SumCounts(b) + x.count
    ensures SumBucketItems(b + [x]) == SumBucketItems(b) + x.items
  {
    if b == [] {
      assert b + [x] == [x];
      assert [x][1..] == [];
    } else {
      assert (b + [x])[0] == b[0] && (b + [x])[1..] == b[1..] + [x];
      BucketSumsAppend(b[1..], x);
    }
  }

  lemma {:induction false} BucketSumsUpdate(b: seq<TypeBucket>, k: nat, x: TypeBucket)
    requires k < |b|
    ensures SumCounts(b[k := x]) == SumCounts(b) - b[k].count + x.count
    ensures SumBucketItems(b[k := x]) == SumBucketItems(b) - b[k].items + x.items
  {
    if k > 0 {
      assert b[k := x][1..] == b[1..][k - 1 := x];
      BucketSumsUpdate(b[1..], k - 1, x);
    } else {
      assert b[k := x][1..] == b[1..];
    }
  }

  /** The bucket counts add up to the number of donations and the bucket items
      to `totalItems`. */
  lemma {:induction false} TypeBucketsSums(ds: seq<Donation>)
    ensures SumCounts(TypeBuckets(ds)) == |ds|
    ensures SumBucketItems(TypeBuckets(ds)) == TotalItems(ds)
    decreases |ds|
  {
    if ds != [] {
      var init, d := ds[..|ds| - 1], ds[|ds| - 1];
      var b := TypeBuckets(init);
      TypeBucketsSums(init);
      assert ds == init + [d];
      TotalItemsAppend(init, [d]);
      assert TotalItems([d]) == QuantityOrZero(d) by {
        assert [d][1..] == [];
      }
      TalliedSums(b, d);
    }
  }

  /** One turn adds one to the counts and the donation's quantity to the items. */
  lemma TalliedSums(b: seq<TypeBucket>, d: Donation)
    ensures SumCounts(Tallied(b, d)) == SumCounts(b) + 1
    ensures SumBucketItems(Tallied(b, d)) == SumBucketItems(b) + QuantityOrZero(d)
  {
    var k := FirstIndex(b, ForKey(TypeKey(d)));
    if k == -1 {
      BucketSumsAppend(b, TypeBucket(TypeKey(d), 1, QuantityOrZero(d)));
    } else {
      BucketSumsUpdate(b, k, TypeBucket(b[k].itemType, b[k].count + 1, b[k].items + QuantityOrZero(d)));
    }
  }

  /** No two buckets share a type. */
  ghost predicate DistinctKeys(b: seq<TypeBucket>) {
    forall i, j :: 0 <= i < j < |b| ==> b[i].itemType != b[j].itemType
  }

  /** Each bucket holds its type's count and item total over `ds`. */
  ghost predicate BucketsCount(b: seq<TypeBucket>, ds: seq<Donation>) {
    forall i :: 0 <= i < |b| ==>
      b[i].count == |Filter(ds, OfType(b[i].itemType))|
      && b[i].items == TotalItems(Filter(ds, OfType(b[i].itemType)))
  }

  /** Every donation's type has a bucket. */
  ghost predicate BucketsCover(b: seq<TypeBucket>, ds: seq<Donation>) {
    forall j :: 0 <= j < |ds| ==> FirstIndex(b, ForKey(TypeKey(ds[j]))) != -1
  }

  lemma OfTypeAppend(ds: seq<Donation>, d: Donation, key: string)
    ensures Filter(ds + [d], OfType(key)) == Filter(ds, OfType(key)) + (if TypeKey(d) == key then [d] else [])
  {
    FilterAppend(ds, [d], OfType(key));
    FilterSingleton(d, OfType(key));
  }

  lemma {:induction false} NoneOfType(ds: seq<Donation>, key: string)
    requires forall j :: 0 <= j < |ds| ==> TypeKey(ds[j]) != key
    ensures Filter(ds, OfType(key)) == []
  {
    if ds != [] {
      assert TypeKey(ds[0]) != key;
      NoneOfType(ds[1..], key);
    }
  }

  /** A type without a bucket has not been met. */
  lemma UncoveredIsAbsent(b: seq<TypeBucket>, ds: seq<Donation>, key: string)
    requires BucketsCover(b, ds)
    requires FirstIndex(b, ForKey(key)) == -1
    ensures Filter(ds, OfType(key)) == []
  {
    forall j | 0 <= j < |ds|
      ensures TypeKey(ds[j]) != key
    {
      var kj := FirstIndex(b, ForKey(TypeKey(ds[j])));
      assert b[kj].itemType == TypeKey(ds[j]);
    }
    NoneOfType(ds, key);
  }

  lemma TalliedDistinct(b: seq<TypeBucket>, d: Donation)
    requires DistinctKeys(b)
    ensures DistinctKeys(Tallied(b, d))
  {
    var k := FirstIndex(b, ForKey(TypeKey(d)));
    if k == -1 {
      var b' := Tallied(b, d);
      forall i, j | 0 <= i < j < |b'|
        ensures b'[i].itemType != b'[j].itemType
      {
        if j == |b| {
          assert !ForKey(TypeKey(d))(b[i]);
        }
      }
    }
  }

  lemma TalliedCovers(b: seq<TypeBucket>, init: seq<Donation>, d: Donation, ds: seq<Donation>)
    requires ds == init + [d]
    requires BucketsCover(b, init)
    ensures BucketsCover(Tallied(b, d), ds)
  {
    var k := FirstIndex(b, ForKey(TypeKey(d)));
    var b' := Tallied(b, d);
    forall j | 0 <= j < |ds|
      ensures FirstIndex(b', ForKey(TypeKey(ds[j]))) != -1
    {
      var kk := TypeKey(ds[j]);
      if j < |init| {
        assert ds[j] == init[j];
        var kj := FirstIndex(b, ForKey(kk));
        assert ForKey(kk)(b'[kj]);
      } else if k == -1 {
        assert ForKey(kk)(b'[|b|]);
      } else {
        assert ForKey(kk)(b'[k]);
      }
    }
  }

  /** The bucket a new type opens counts that one donation. */
  lemma NewBucketCounts(b: seq<TypeBucket>, init: seq<Donation>, d: Donation, ds: seq<Donation>)
    requires ds == init + [d]
    requires BucketsCover(b, init)
    requires FirstIndex(b, ForKey(TypeKey(d))) == -1
    ensures Filter(ds, OfType(TypeKey(d))) == [d]
    ensures TotalItems([d]) == QuantityOrZero(d)
  {
    assert [d][1..] == [];
    OfTypeAppend(init, d, TypeKey(d));
    UncoveredIsAbsent(b, init, TypeKey(d));
  }

  /** The bucket of `d`'s type grows by `d`. */
  lemma HitBucketCounts(init: seq<Donation>, d: Donation, ds: seq<Donation>)
    requires ds == init + [d]
    ensures |Filter(ds, OfType(TypeKey(d)))| == |Filter(init, OfType(TypeKey(d)))| + 1
    ensures TotalItems(Filter(ds, OfType(TypeKey(d)))) == TotalItems(Filter(init, OfType(TypeKey(d)))) + QuantityOrZero(d)
  {
    assert [d][1..] == [];
    OfTypeAppend(init, d, TypeKey(d));
    TotalItemsAppend(Filter(init, OfType(TypeKey(d))), [d]);
  }

  /** A bucket of another type sees no change. */
  lemma OtherBucketCounts(init: seq<Donation>, d: Donation, ds: seq<Donation>, x: TypeBucket)
    requires ds == init + [d]
    requires x.itemType != TypeKey(d)
    requires x.count == |Filter(init, OfType(x.itemType))| && x.items == TotalItems(Filter(init, OfType(x.itemType)))
    ensures x.count == |Filter(ds, OfType(x.itemType))| && x.items == TotalItems(Filter(ds, OfType(x.itemType)))
  {
    OfTypeAppend(init, d, x.itemType);
    assert Filter(ds, OfType(x.itemType)) == Filter(init, OfType(x.itemType)) + [];
    assert Filter(init, OfType(x.itemType)) + [] == Filter(init, OfType(x.itemType));
  }

  lemma TalliedCounts(b: seq<TypeBucket>, init: seq<Donation>, d: Donation, ds: seq<Donation>)
    requires ds == init + [d]
    requires DistinctKeys(b) && BucketsCount(b, init) && BucketsCover(b, init)
    ensures BucketsCount(Tallied(b, d), ds)
  {
    if FirstIndex(b, ForKey(TypeKey(d))) == -1 {
      NewBucketTallied(b, init, d, ds);
    } else {
      HitBucketTallied(b, init, d, ds);
    }
  }

  lemma NewBucketTallied(b: seq<TypeBucket>, init: seq<Donation>, d: Donation, ds: seq<Donation>)
    requires ds == init + [d]
    requires BucketsCount(b, init) && BucketsCover(b, init)
    requires FirstIndex(b, ForKey(TypeKey(d))) == -1
    ensures BucketsCount(Tallied(b, d), ds)
  {
    var b' := Tallied(b, d);
    assert b' == b + [TypeBucket(TypeKey(d), 1, QuantityOrZero(d))];
    NewBucketCounts(b, init, d, ds);
    forall i | 0 <= i < |b|
      ensures b'[i].count == |Filter(ds, OfType(b'[i].itemType))|
      ensures b'[i].items == TotalItems(Filter(ds, OfType(b'[i].itemType)))
    {
      assert !ForKey(TypeKey(d))(b[i]);
      OtherBucketCounts(init, d, ds, b[i]);
    }
  }

  lemma HitBucketTallied(b: seq<TypeBucket>, init: seq<Donation>, d: Donation, ds: seq<Donation>)
    requires ds == init + [d]
    requires DistinctKeys(b) && BucketsCount(b, init)
    requires FirstIndex(b, ForKey(TypeKey(d))) != -1
    ensures BucketsCount(Tallied(b, d), ds)
  {
    var k := FirstIndex(b, ForKey(TypeKey(d)));
    var b' := Tallied(b, d);
    HitBucketCounts(init, d, ds);
    forall i | 0 <= i < |b'| && i != k
      ensures b'[i].count == |Filter(ds, OfType(b'[i].itemType))|
      ensures b'[i].items == TotalItems(Filter(ds, OfType(b'[i].itemType)))
    {
      assert b'[i] == b[i];
      OtherBucketCounts(init, d, ds, b[i]);
    }
  }

  /** Each bucket holds exactly its type's count and items, no type has two
      buckets, and every donation's type has one. */
  lemma {:induction false} TypeBucketsDescribe(ds: seq<Donation>)
    ensures DistinctKeys(TypeBuckets(ds))
    ensures BucketsCount(TypeBuckets(ds), ds)
    ensures BucketsCover(TypeBuckets(ds), ds)
    decreases |ds|
  {
    if ds != [] {
      var init, d := ds[..|ds| - 1], ds[|ds| - 1];
      assert ds == init + [d];
      TypeBucketsDescribe(init);
      TalliedDistinct(TypeBuckets(init), d);
      TalliedCovers(TypeBuckets(init), init, d, ds);
      TalliedCounts(TypeBuckets(init), init, d, ds);
    }
  }

  /** One turn of the `forEach`: open the bucket with zeros when the type is new,
      then bump its count and items. */
  method CountIn(buckets: seq<TypeBucket>, d: Donation) returns (r: seq<TypeBucket>)
    ensures r == Tallied(buckets, d)
  {
    r := buckets;
    var key := TypeKey(d);
    var k := FirstIndex(r, ForKey(key));
    if k == -1 {
      r := r + [TypeBucket(key, 0, 0)];
      k := |r| - 1;
    }
    r := r[k := TypeBucket(r[k].itemType, r[k].count + 1, r[k].items + QuantityOrZero(d))];
  }

  /** `getDonationStatsByType`: the `forEach` that fills the per-type buckets. */
  method DonationStatsByType(ds: seq<Donation>) returns (stats: seq<TypeBucket>)
    ensures stats == TypeBuckets(ds)
    ensures SumCounts(stats) == |ds| && SumBucketItems(stats) == TotalItems(ds)
    ensures DistinctKeys(stats) && BucketsCount(stats, ds) && BucketsCover(stats, ds)
  {
    stats := [];
    var i := 0;
    while i < |ds|
      invariant 0 <= i <= |ds|
      invariant stats == TypeBuckets(ds[..i])
    {
      stats := CountIn(stats, ds[i]);
      assert ds[..i + 1][..i] == ds[..i] && ds[..i + 1][i] == ds[i];
      i := i + 1;
    }
    assert ds[..|ds|] == ds;
    TypeBucketsSums(ds);
    TypeBucketsDescribe(ds);
  }

  // ---------------------------------------------------------------- top NGOs

  /** A per-NGO entry of the `getTopNgos` tally. */
  datatype Tally = Tally(count: nat, items: int)

  /** `{ ...ngo, donationCount, totalItems }`. */
  datatype NgoRanking = NgoRanking(ngo: User, donationCount: nat, totalItems: int)

  /** `limit = 5`. */
  const DefaultTopNgoLimit: nat := 5

  /** `stats[id]`, or a zero tally where there is none (`?.count || 0`). */
  function TallyOf(tally: map<int, Tally>, id: int): Tally {
    if id in tally then tally[id] else Tally(0, 0)
  }

  /** The donations the tally counts for NGO `id`: `if (donation.ngoId)` skips an id of 0. */
  function ReceivedBy(ds: seq<Donation>, id: int): seq<Donation> {
    if id == 0 then [] else DonationsByNgo(ds, id)
  }

  /** The ranking entries before the sort, one per NGO, in the order given. */
  function Rankings(ngos: seq<User>, ds: seq<Donation>): (r: seq<NgoRanking>)
    ensures |r| == |ngos|
    ensures forall i :: 0 <= i < |r| ==> r[i].ngo == ngos[i]
  {
    seq(|ngos|, i requires 0 <= i < |ngos| =>
      NgoRanking(ngos[i], |ReceivedBy(ds, ngos[i].id)|, TotalItems(ReceivedBy(ds, ngos[i].id))))
  }

  function RankKey(r: NgoRanking): int {
    r.donationCount
  }

  /** What the tally holds once the `forEach` has seen `ds`. */
  ghost predicate TalliesOf(tally: map<int, Tally>, ds: seq<Donation>) {
    forall id {:trigger TallyOf(tally, id)} :: TallyOf(tally, id) == Tally(|ReceivedBy(ds, id)|, TotalItems(ReceivedBy(ds, id)))
  }

  /** The tally after one turn of the `forEach` on `d`. */
  function Counted(tally: map<int, Tally>, d: Donation): map<int, Tally> {
    if d.data.ngoId.Some? && d.data.ngoId.value != 0 then
      var id := d.data.ngoId.value;
      tally[id := Tally(TallyOf(tally, id).count + 1, TallyOf(tally, id).items + QuantityOrZero(d))]
    else tally
  }

  lemma TallyStepAt(tally: map<int, Tally>, ds: seq<Donation>, d: Donation, id: int)
    requires TallyOf(tally, id) == Tally(|ReceivedBy(ds, id)|, TotalItems(ReceivedBy(ds, id)))
    ensures TallyOf(Counted(tally, d), id) == Tally(|ReceivedBy(ds + [d], id)|, TotalItems(ReceivedBy(ds + [d], id)))
  {
    if id != 0 {
      DonationsByNgoAppend(ds, d, id);
      if d.data.ngoId == Some(id) {
        TotalItemsAppend(DonationsByNgo(ds, id), [d]);
        assert TotalItems([d]) == QuantityOrZero(d) by {
          assert [d][1..] == [];
        }
      } else {
        assert DonationsByNgo(ds + [d], id) == DonationsByNgo(ds, id);
      }
    }
  }

  /** One turn of the `forEach` keeps the tally exact. */
  lemma TallyStep(tally: map<int, Tally>, ds: seq<Donation>, d: Donation)
    requires TalliesOf(tally, ds)
    ensures TalliesOf(Counted(tally, d), ds + [d])
  {
    forall id
      ensures TallyOf(Counted(tally, d), id) == Tally(|ReceivedBy(ds + [d], id)|, TotalItems(ReceivedBy(ds + [d], id)))
    {
      TallyStepAt(tally, ds, d, id);
    }
  }

  /** The tally once the `forEach` of `getTopNgos` has seen `ds`. */
  function NgoTallies(ds: seq<Donation>): map<int, Tally>
    decreases |ds|
  {
    if ds == [] then map[] else Counted(NgoTallies(ds[..|ds| - 1]), ds[|ds| - 1])
  }

  /** The tally counts, per NGO id, the donations addressed to it and their items. */
  lemma {:induction false} NgoTalliesCount(ds: seq<Donation>)
    ensures TalliesOf(NgoTallies(ds), ds)
    decreases |ds|
  {
    if ds == [] {
      forall id
        ensures TallyOf(map[], id) == Tally(|ReceivedBy(ds, id)|, TotalItems(ReceivedBy(ds, id)))
      {
      }
    } else {
      var init, d := ds[..|ds| - 1], ds[|ds| - 1];
      assert ds == init + [d];
      NgoTalliesCount(init);
      TallyStep(NgoTallies(init), init, d);
    }
  }

  /** The `forEach` of `getTopNgos`: donations and items per addressed NGO. */
  method TallyByNgo(ds: seq<Donation>) returns (tally: map<int, Tally>)
    ensures tally == NgoTallies(ds)
    ensures forall id :: TallyOf(tally, id).count == |ReceivedBy(ds, id)|
    ensures forall id :: TallyOf(tally, id).items == TotalItems(ReceivedBy(ds, id))
  {
    tally := map[];
    var i := 0;
    while i < |ds|
      invariant 0 <= i <= |ds|
      invariant tally == NgoTallies(ds[..i])
    {
      var d := ds[i];
      if d.data.ngoId.Some? && d.data.ngoId.value != 0 {
        var id := d.data.ngoId.value;
        var t := TallyOf(tally, id);
        tally := tally[id := Tally(t.count + 1, t.items + QuantityOrZero(d))];
      }
      assert ds[..i + 1][..i] == ds[..i];
      i := i + 1;
    }
    assert ds[..|ds|] == ds;
    NgoTalliesCount(ds);
    forall id
      ensures TallyOf(tally, id).count == |ReceivedBy(ds, id)|
      ensures TallyOf(tally, id).items == TotalItems(ReceivedBy(ds, id))
    {
      assert TallyOf(tally, id) == Tally(|ReceivedBy(ds, id)|, TotalItems(ReceivedBy(ds, id)));
    }
  }

  /** The ranking is of verified NGOs from the users, each with its own counts,
      sorted most donations first, cut to `limit`, and ties keep store order. */
  lemma TopNgosShape(users: seq<User>, ds: seq<Donation>, limit: nat)
    ensures var ranked := Rankings(VerifiedNgos(users), ds);
      var top := Take(SortDesc(ranked, RankKey), limit);
      && |top| == (if limit < |VerifiedNgos(users)| then limit else |VerifiedNgos(users)|)
      && (forall i :: 0 <= i < |top| ==> top[i].ngo in users && IsVerifiedNgo(top[i].ngo))
      && (forall i :: 0 <= i < |top| ==>
            top[i].donationCount == |ReceivedBy(ds, top[i].ngo.id)| && top[i].totalItems == TotalItems(ReceivedBy(ds, top[i].ngo.id)))
      && SortedDesc(top, RankKey)
      && (forall c :: Filter(top, KeyIs(RankKey, c)) <= Filter(ranked, KeyIs(RankKey, c)))
  {
    var ngos := VerifiedNgos(users);
    var ranked := Rankings(ngos, ds);
    var sorted := SortDesc(ranked, RankKey);
    var top := Take(sorted, limit);
    SortDescSorted(ranked, RankKey);
    forall k | 0 <= k < |top|
      ensures top[k].ngo in users && IsVerifiedNgo(top[k].ngo)
      ensures top[k].donationCount == |ReceivedBy(ds, top[k].ngo.id)| && top[k].totalItems == TotalItems(ReceivedBy(ds, top[k].ngo.id))
    {
      assert top[k] == sorted[k];
      assert sorted[k] in multiset(ranked);
      var j :| 0 <= j < |ranked| && ranked[j] == top[k];
      assert top[k].ngo == ngos[j];
    }
    forall c
      ensures Filter(top, KeyIs(RankKey, c)) <= Filter(ranked, KeyIs(RankKey, c))
    {
      FilterPrefix(top, sorted, KeyIs(RankKey, c));
      SortDescStable(ranked, RankKey, c);
    }
  }

  /** `getTopNgos(limit)`: the verified NGOs with their tallies, most donations
      first (ties in store order), cut to `limit`. */
  method GetTopNgos(users: seq<User>, ds: seq<Donation>, limit: nat) returns (top: seq<NgoRanking>)
    ensures top == Take(SortDesc(Rankings(VerifiedNgos(users), ds), RankKey), limit)
  {
    var tally := TallyByNgo(ds);
    var ngos := VerifiedNgos(users);
    var ranked := seq(|ngos|, j requires 0 <= j < |ngos| =>
      NgoRanking(ngos[j], TallyOf(tally, ngos[j].id).count, TallyOf(tally, ngos[j].id).items));
    assert ranked == Rankings(ngos, ds);
    top := Take(SortDesc(ranked, RankKey), limit);
  }

  /** `getTopNgos()` as the reports page calls it, with the default limit. */
  method GetTopNgosDefault(users: seq<User>, ds: seq<Donation>) returns (top: seq<NgoRanking>)
    ensures top == Take(SortDesc(Rankings(VerifiedNgos(users), ds), RankKey), DefaultTopNgoLimit)
    ensures |top| <= DefaultTopNgoLimit
  {
    top := GetTopNgos(users, ds, DefaultTopNgoLimit);
  }

  /** An NGO the cut leaves out has no more donations than any NGO shown. */
  lemma TopNgosAreTop(users: seq<User>, ds: seq<Donation>, limit: nat, i: int, j: int)
    requires var s := SortDesc(Rankings(VerifiedNgos(users), ds), RankKey);
      0 <= i < |Take(s, limit)| && limit <= j < |s|
    ensures var s := SortDesc(Rankings(VerifiedNgos(users), ds), RankKey);
      Take(s, limit)[i].donationCount >= s[j].donationCount
  {
    var s := SortDesc(Rankings(VerifiedNgos(users), ds), RankKey);
    SortDescSorted(Rankings(VerifiedNgos(users), ds), RankKey);
    assert RankKey(s[i]) >= RankKey(s[j]);
  }
}
