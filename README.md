# Donation & Reuse Platform — a Dafny model of its core

The platform is a browser-only application in which donors offer items, NGOs
accept, collect and deliver them, and an administrator verifies NGOs. Below its
HTML building sits a small stateful core:

- the record store (`StorageManager`): users, donations, a donation id counter, and the queries and aggregates over them;
- the session (`AuthManager`): the login and registration check chains, and the current user;
- the donation lifecycle: the buttons each role is offered by status, and the handlers those buttons call;
- the admin's NGO verification: verify, revoke, remove, list, filter, and the recent-activity feed;
- the e-mail and phone validators.

This project models that core in Dafny and proves properties of the model.

Layout, one module per file:

| file | module | models |
|---|---|---|
| `wrappers.dfy` | `Wrappers` | `Option`, standing for `null`/`undefined`/`NaN` and `x \|\| default` |
| `seqs.dfy` | `Seqs` | the array methods the source relies on: `filter`, `findIndex`, `find`, `slice`, and the stable `sort` |
| `records.dfy` | `Records` | users, donations, their partial updates, `totalItems` |
| `lifecycle.dfy` | `Lifecycle` | the status graph and the card buttons |
| `storage.dfy` | `Storage` | the `StorageManager` class and its lookups |
| `queries.dfy` | `Queries` | the selections, `getStats`, `getDonationStatsByType`, `getTopNgos` |
| `auth.dfy` | `Auth` | the `AuthManager` class and the sign-in and sign-up forms |
| `ngo.dfy` | `NgoManager` | the NGO pages |
| `donor.dfy` | `DonorManager` | the donor pages |
| `admin.dfy` | `AdminManager` | the admin pages |
| `utils.dfy` | `Utils` | `validateEmail`, `validatePhone`, `getToastIcon` |

Modelling choices:

- **State.** The store is a class whose fields are a `seq<User>`, a `seq<Donation>` and the counter. They replace the JSON blobs in `localStorage`.
- **Reads of the store.** Each read of a collection is the field's current value. Each write reassigns the field.
- **Timestamps.** They are an abstract clock (`nat`). Every stamping method takes `now` no earlier than the store's ghost `clock`, the latest stamp written.
- **Store invariant.** `Valid()` says:
  - user ids are positive and distinct;
  - donation ids are positive, below the counter and strictly increasing along the list;
  - `createdAt <= updatedAt <= clock`.
- **Enumerations.** Roles and statuses are closed datatypes. The status and verification filters stay strings, because they come from `<select>` values.
- **Dialogs.** The answers to `confirm` and `prompt` are parameters: a `bool`, and an `Option<string>` where `None` is a dismissed prompt.
- **Sessions.** The signed-in donor or NGO is a parameter where a page reads it from the session.
- **Sorting.** `Array.prototype.sort` is stable, as ECMAScript 2019 and later require. With a consistent comparator a stable sort has exactly one possible result, so it is modelled as insertion sort.

## Model

| member | source | states |
|---|---|---|
| `Storage.SeedUsers` | js/storage.js:21-68 | the seed holds ids 1-4, all stamped `now`: an admin, a donor, a verified NGO and an unverified NGO, with distinct emails; it meets the store invariant |
| `Storage.FindUserByEmail` | js/storage.js:76-79 | the result is the first stored user with exactly that email (none before it has it); None iff no user has it |
| `Storage.FindUserById` | js/storage.js:82-85 | the result is the first stored user with that id; None iff no user has it |
| `Storage.FindDonationById` | js/storage.js:118-121 | the result is the first stored donation with that id; None iff none has it |
| `Storage.MaxUserId` | js/storage.js:91 | the maximum is at least every id and is the id of some user |
| `Storage.NextUserId` | js/storage.js:91 | 1 on an empty list; otherwise some id plus one, above every id |
| `Storage.StorageManager.constructor` | js/storage.js:8-18 | on empty storage: the seed users, no donations, counter 1, invariant established |
| `Storage.StorageManager.AddUser` | js/storage.js:88-98 | appends exactly one user with the next id, the given data and stamp `now`; earlier users, donations and counter unchanged; invariant kept |
| `Storage.StorageManager.UpdateUser` | js/storage.js:101-110 | users become the patched list (only the user with that id merged); None iff the id is unknown, in which case nothing changes; returns the merged record; invariant kept |
| `Storage.PatchUsers` | js/storage.js:101-110 | the list after an update keeps its length, every id and creation stamp, and every user with another id; the user with that id becomes its `Patched` merge; distinct ids stay distinct |
| `Storage.PatchDonations` | js/storage.js:144-157 | the list after an update keeps its length, every id, data and creation stamp; the donation with that id becomes its `Patched` merge: the patch's status and, when carried, its rejection reason, with `updatedAt == now`; the others are unchanged |
| `Storage.PatchUsersAbsent` | js/storage.js:101-110 | a patch for an unknown id leaves the users unchanged |
| `Storage.StorageManager.AddDonation` | js/storage.js:124-141 | appends one donation with the old counter as id, status pending, no reason, `createdAt == updatedAt == now`; counter up by exactly 1; ids stay strictly increasing |
| `Storage.StorageManager.UpdateDonation` | js/storage.js:144-157 | donations become the patched list whatever the prior status; `updatedAt` of the match is `now` and no stamp decreases; None iff the id is unknown |
| `Storage.StorageManager.ClearAllData` | js/storage.js:254-259 | exactly the four seed users, no donations, counter 1 |
| `Storage.FilterKeepsUsersWellFormed` | js/admin.js:218-219 | removing users by any filter keeps ids positive and distinct |
| `Records.User.Patched` | js/storage.js:105 | the spread merge keeps id, creation stamp and organisation; name, email, password, role and verified each take the patch's value when it carries one, else keep the user's |
| `Records.Donation.Patched` | js/storage.js:148-152 | the merge keeps id, data and creation stamp, takes the patch's status and, when the patch carries one, its rejection reason (else keeps its own), and stamps `updatedAt` |
| `Records.TotalItemsAppend` | js/storage.js:206 | the quantity sum distributes over concatenation |
| `Queries.DonationsByDonor` | js/storage.js:160-163 | exactly the donations with that donor id, each from the store |
| `Queries.DonationsByNgo` | js/storage.js:166-176 | exactly the donations whose `ngoId` is that id, each from the store |
| `Queries.VerifiedNgos` | js/storage.js:179-182 | exactly the NGO users with `verified` set |
| `Queries.PendingNgos` | js/storage.js:185-188 | exactly the NGO users without `verified` |
| `Queries.NgoSelectionsPartition` | js/storage.js:197-199 | the verified and pending NGOs are disjoint and their counts add up to the NGO count |
| `Queries.GetStats` | js/storage.js:191-208 | user, donation and item totals are those of the store; donors and NGOs are the counts of users with that role, and the pending, accepted, picked-up and completed counts are the counts of donations with pending, accepted, picked_up and delivered status; `totalNgos == verifiedNgos + pendingNgos` with the two selections' sizes; donors plus NGOs at most users; the four status counts at most the donation count |
| `Queries.StatsAfterSubmission` | js/storage.js:200-206 | appending a pending donation raises the donation and pending counts by one and `totalItems` by its quantity (0 when missing) |
| `Queries.DonationStatsByType` | js/storage.js:211-225 | the loop builds the per-type buckets; their counts sum to the donation count and their items to `totalItems`; no type twice; each bucket holds exactly its type's count and items; each donation's type (`'other'` when empty) has a bucket |
| `Queries.TypeBuckets` | js/storage.js:211-225 | the fold of the `forEach`: no more buckets than donations, and none exactly when there are no donations |
| `Queries.CountIn` | js/storage.js:216-222 | one turn of the `forEach` (open a zero bucket for a new type, then bump it) is the fold's step |
| `Queries.TypeBucketsSums` | js/storage.js:216-222 | bucket counts sum to the number of donations, bucket items to the quantity total |
| `Queries.TypeBucketsDescribe` | js/storage.js:216-222 | one bucket per type met, none twice, each with that type's count and item total |
| `Queries.TallyByNgo` | js/storage.js:233-242 | the loop's tally gives each NGO id the number and quantity total of donations addressed to it; id 0 and a missing id are skipped |
| `Queries.NgoTalliesCount` | js/storage.js:233-242 | the fold the loop computes counts, per id, exactly the donations addressed to it |
| `Queries.Rankings` | js/storage.js:244-248 | one entry per verified NGO, in user-list order |
| `Queries.GetTopNgos` | js/storage.js:228-251 | the result is the stable descending sort of the verified NGOs' entries, cut to `limit` |
| `Queries.GetTopNgosDefault` | js/storage.js:228 | called without a limit (as admin.js:280 does), the same ranking cut to 5 |
| `Queries.TopNgosShape` | js/storage.js:228-251 | at most `limit` entries; all verified NGOs from the users; each count is the number of donations with that `ngoId`; non-increasing counts; ties keep user-list order |
| `Queries.TopNgosAreTop` | js/storage.js:248-250 | no NGO cut off has more donations than an NGO shown |
| `Seqs.SortDescSorted` | js/storage.js:248 | the sort orders by key, largest first |
| `Seqs.SortDescStable` | js/storage.js:248 | elements with equal keys keep their relative order |
| `Auth.CheckLogin` | js/auth.js:95-113 | each failure exactly under its condition, in order: unknown email, wrong password, wrong role, unverified NGO; on success the user found matches email, password and role, and is verified if an NGO |
| `Auth.LoginSucceedsIff` | js/auth.js:95-113 | login succeeds iff the first user with that email has that password and role and, for an NGO, is verified |
| `Auth.AuthManager.Login` | js/auth.js:95-120 | the result is the check chain's; success sets `currentUser` to the stored user, who then has the requested role; failure leaves it |
| `Auth.RegisterCheck` | js/auth.js:127-135 | a taken email is reported before a short password; accepted iff the email is new and the password has at least 6 characters |
| `Auth.NewUserData` | js/auth.js:138-150 | the new record copies the input, is verified iff donor or admin, and carries organisation fields iff the role is NGO |
| `Auth.AuthManager.Register` | js/auth.js:123-157 | a failure carries the check's error and changes nothing; success appends exactly one user through `addUser` |
| `Auth.RegisteredCanLogIn` | js/auth.js:138-156 | after a successful registration as donor or admin, login with the same email, password and role returns the new user |
| `Auth.RegisteredNgoNeedsVerification` | js/auth.js:141-143 | a newly registered NGO is refused as not verified |
| `Auth.VerifiedPatchKeepsLookup` | js/storage.js:101-110 | a `verified` patch leaves the email lookup finding the same index |
| `Auth.VerifyEnablesLogin` | js/auth.js:110-113 | once `{ verified: true }` is applied to an NGO, its login succeeds |
| `Auth.RevokeDisablesLogin` | js/admin.js:228-234 | once `{ verified: false }` is applied to an NGO, its login fails as not verified |
| `Auth.AuthManager.constructor` | js/auth.js:3-17 | the session starts with the saved user, if any |
| `Auth.AuthManager.Logout` | js/auth.js:160-177 | when confirmed, `currentUser` is None and `IsAuthenticated()` is false; otherwise unchanged |
| `Auth.AuthManager.IsAuthenticated` | js/auth.js:185-187 | someone is signed in exactly when the session holds some role |
| `Auth.AuthManager.HasRole` | js/auth.js:190-192 | a role holds exactly when someone is signed in with that role |
| `Auth.AuthManager.HasRoleIff` | js/auth.js:185-192 | a role holds exactly when `IsAuthenticated` and the signed-in user's role is that role |
| `Auth.AuthManager.ProtectRoute` | js/auth.js:185-207 | false when nobody is signed in; with a role given, true iff the signed-in user has it; with none, true whenever someone is signed in |
| `Auth.CheckRegistrationForm` | js/auth.js:275-297 | in order: a missing required field, differing passwords, an NGO with an empty organisation field; accepted iff none applies |
| `Auth.FormInput` | js/auth.js:287-295 | the data handed to `register` carries the form's name, role, email, password and the three organisation fields |
| `Auth.SubmitRegistration` | js/auth.js:258-315 | a form error stops before `register` and changes nothing; otherwise `register` decides, adding exactly the new user on success; the error text is the form's message or `register`'s message, and there is none exactly on success |
| `Auth.SubmitLogin` | js/auth.js:215-241 | an empty field shows 'Please fill in all fields' and leaves the session; otherwise the login chain's message, or success with `currentUser` set |
| `Lifecycle.ActionFor` | js/ngo.js:171-207 | the button for a status writes exactly that status |
| `Lifecycle.EdgeShape` | js/ngo.js:171-207 | no edge leads back to pending, and no edge leaves a final status |
| `NgoManager.GetRequestActions` | js/ngo.js:171-207 | every button but the last is an NGO-owned lifecycle edge from the status, every such edge has its button, no button twice, "View Details" last, final statuses get only it; in order: Accept, Reject for pending; Mark as Picked Up, Reject for accepted; Mark as Delivered for picked up |
| `NgoManager.AcceptDonation` | js/ngo.js:210-216 | confirmed: the donation with that id becomes accepted, whatever its status; unconfirmed: no change |
| `NgoManager.RejectionReason` | js/ngo.js:220-225 | the stored reason is the answer when non-empty, else 'Rejected by NGO'; never empty |
| `NgoManager.RejectDonation` | js/ngo.js:219-229 | without confirmation, the donation becomes rejected with that reason |
| `NgoManager.MarkAsPickedUp` | js/ngo.js:232-238 | confirmed: status becomes picked_up, whatever it was; unconfirmed: no change |
| `NgoManager.MarkAsDelivered` | js/ngo.js:241-247 | confirmed: status becomes delivered, whatever it was; unconfirmed: no change |
| `NgoManager.StatusPatchIsUnguarded` | js/ngo.js:210-247 | a status patch lands from any prior status, final ones included, and leaves other donations as they were |
| `NgoManager.RejectionPatchRecordsReason` | js/ngo.js:222-225 | the rejection patch sets both the status and the reason |
| `NgoManager.FlowIndex` | js/ngo.js:143 | the index is a step holding that status, or -1 exactly when the status is off the strip |
| `NgoManager.FlowIndexValues` | js/ngo.js:136-143 | pending 0, accepted 1, picked_up 2, delivered 3, rejected and cancelled -1 |
| `NgoManager.StatusFlow` | js/ngo.js:135-157 | one class per step of the strip; the status's own step is active; a status off the strip leaves every step plain (donor.js:225-248 is the same code) |
| `NgoManager.StatusFlowMarks` | js/ngo.js:135-157 | each step of the strip is completed iff it comes before the status's index, active iff it is the status, and plain for rejected and cancelled |
| `NgoManager.FlowAdvances` | js/ngo.js:135-157 | following an edge along the strip moves the active step one place on and completes the one left |
| `NgoManager.StatusBadge` | js/ngo.js:123-132 | a status on the strip shows its own badge; any other shows pending |
| `NgoManager.TimeDisplay` | js/ngo.js:160-168 | morning, afternoon and evening get their hours; any other value is shown unchanged |
| `NgoManager.GetNgoStatistics` | js/ngo.js:340-369 | counts only that NGO's donations; each status count and their sum at most `totalRequests`; per-type counts sum to `totalRequests` and items to `totalItems` |
| `NgoManager.FilterRequests` | js/ngo.js:278-288 | 'all' gives all of the NGO's donations; otherwise each result is that NGO's and has the chosen status |
| `NgoManager.FilterRequestsIsOneFilter` | js/ngo.js:278-288 | the result is the one order-keeping filter "addressed to this NGO and, unless 'all', of that status" |
| `NgoManager.FilterRequestsByStatus` | js/ngo.js:278-288 | a filter value that is a status's own name selects exactly the NGO's donations in that status |
| `DonorManager.ValidateDonationData` | js/donor.js:134-147 | 'Please fill in all required fields' iff a required field is falsy (quantity or NGO NaN or 0); 'Quantity must be at least 1' iff all are present and the quantity is negative; accepted iff present with quantity at least 1 |
| `DonorManager.AcceptedDataIsComplete` | js/donor.js:134-147 | accepted data names an NGO and has a quantity of at least 1 |
| `DonorManager.GetNgoName` | js/donor.js:150-153 | the organisation name of the user with that id; 'Unknown NGO' for an unknown or NaN id |
| `DonorManager.NgoNameOfUser` | js/donor.js:150-153 | with distinct ids, the name shown for any stored NGO's id is that NGO's organisation name |
| `DonorManager.DonationDataFrom` | js/donor.js:96-110 | the record copies the donor's id, name and email and the form's NGO, quantity and item fields; the NGO name comes from the lookup |
| `DonorManager.SubmitDonation` | js/donor.js:90-129 | stored only if validation passes, then as a new pending donation of that donor; otherwise the store is unchanged |
| `DonorManager.GetDonationActions` | js/donor.js:261-279 | cancel offered iff pending, and it is the donor-owned edge; "View Details" always, last |
| `DonorManager.CancelDonation` | js/donor.js:282-288 | confirmed: status becomes cancelled, whatever it was; unconfirmed: no change |
| `DonorManager.DonorDashboardStats` | js/donor.js:32-41 | total, pending and delivered count only that donor's donations; `pending + completed <= total` |
| `DonorManager.OtherDonorsDoNotCount` | js/donor.js:32-41 | another donor's donation does not move the counters |
| `DonorManager.FilterDonations` | js/donor.js:317-327 | 'all' gives all of the donor's donations; otherwise each result is the donor's and has the chosen status |
| `DonorManager.FilterDonationsIsOneFilter` | js/donor.js:317-327 | the result is the one order-keeping filter "from this donor and, unless 'all', of that status" |
| `AdminManager.VerifyNgo` | js/admin.js:205-211 | confirmed: `{ verified: true }` merged into that id; unconfirmed: no change |
| `AdminManager.RevokeNgoVerification` | js/admin.js:228-234 | confirmed: `{ verified: false }` merged into that id; unconfirmed: no change |
| `AdminManager.SetVerifiedEffect` | js/admin.js:205-234 | the patch sets `verified` on that id's user, changes no other field, and leaves other users equal |
| `AdminManager.RejectNgo` | js/admin.js:214-225 | confirmed: the users become those whose id differs, donations and counter untouched, invariant kept; unconfirmed: no change |
| `AdminManager.RejectRemovesExactlyOne` | js/admin.js:218 | with distinct ids, removing the user at index k leaves exactly the others, in order |
| `AdminManager.RejectUnknownIsNoop` | js/admin.js:218 | removing an id nobody has changes nothing |
| `AdminManager.ClearAllData` | js/admin.js:425-434 | after both confirmations: seed users, no donations, counter 1; otherwise no change |
| `AdminManager.NgoVerificationList` | js/admin.js:129-134 | exactly the NGO users, each from the store |
| `AdminManager.FilterNgos` | js/admin.js:258-273 | 'pending' gives the unverified NGOs, 'verified' the verified, 'rejected' none, anything else all NGOs |
| `AdminManager.DonationStatusBadge` | js/admin.js:107-116 | a badge iff the status is on the strip, and then its own; none for rejected and cancelled |
| `AdminManager.BadgesAgreeOnStrip` | js/admin.js:107-116 | on the strip the admin badge is the status; rejected and cancelled show none |
| `AdminManager.TakeLast` | js/admin.js:67 | the last n elements, or all when fewer |
| `AdminManager.GatheredActivities` | js/admin.js:55-74 | the first `min(10, \|donations\|)` entries are the first donations in order, followed by the last `min(10, \|users\|)` users in order |
| `AdminManager.RecentActivity` | js/admin.js:46-88 | the two pushing loops gather the first ten donations then the last ten users; the result is that list sorted newest first, cut to five |
| `AdminManager.RecentActivityShape` | js/admin.js:46-88 | at most five entries, newest first, each from the first ten donations or the last ten users; none left out is newer than one shown |
| `Utils.ValidEmailIsPattern` | js/utils.js:128-131 | the check accepts exactly `name@name.name` with non-empty runs of non-space, non-'@' characters |
| `Utils.InvalidEmails` | js/utils.js:128-131 | whitespace at any position, the last included, or two '@' at different positions make an email invalid |
| `Utils.ValidPhoneIff` | js/utils.js:134-137 | valid iff some character is not whitespace and every such character is a digit, '-', '+', '(' or ')'; blank is invalid |
| `Utils.GetToastIcon` | js/utils.js:58-66 | success, error and warning get their icons; anything else gets the info icon |

## Left out

- Persistence is not modelled: `localStorage`, `sessionStorage`, `JSON.parse`/`stringify` and reloading saved data. The store starts from empty storage, and the session's saved user is a constructor parameter.
- `parseInt` coercion is not modelled. Ids come as `int`, and the parsed form fields `ngo` and `quantity` as `Option<int>`, where None is NaN.
- Routing and navigation are not modelled: `checkPageAccess`, `checkRoleAccess`, `redirectToDashboard`, `initializePage`, the redirects in `logout`/`protectRoute` and the delayed redirects. They dispatch on URL substrings.
- Presentation is not modelled: HTML strings, DOM updates, toasts and `showMessage`. Badges and buttons are modelled as the status or action they show.
- `getVerificationStatusBadge`, `updateUserUI` and `viewNgoDetails`/`viewDonationDetails`/`viewRequestDetails` are left out, because they only format text.
- Timers are not modelled: `debounce`, `animateNumber`, `setTimeout`.
- `formatDate` is not modelled (locale), nor `generateSkeleton` (randomness), `copyToClipboard` (async API) or `exportData` (download link).
- The `console.log` calls in `getDonationsByNgo` are not modelled.
- The NGO `loadDashboard` counters and `getAdminStatistics` are not separate members: they are the same counts as `GetNgoStatistics` and `getStats`.
- Cross-tab races on shared storage are not modelled.
- Object keys that collide with `Object.prototype` members are not modelled. An item type or time slot such as `constructor` would find an inherited value in `stats[type]` or `timeMap[time]`. The model treats every key as absent until written.
- Integer-like item types (`"123"`) are not modelled. `Object.entries` would list them before the other keys; the model keeps first-seen order for every key.
- `Auth.RegisterCheck`: the length is counted in code points, where JavaScript's `.length` counts UTF-16 code units. A password with characters outside the Basic Multilingual Plane is longer in the source than in the model.
- Records.UserPatch: covers name, email, password, role and verified; the source's callers (admin.js:207 and admin.js:230) send only `verified`. A patch cannot carry `id`, `createdAt` or organisation fields, which the spread in `updateUser` would also overwrite.
- Records.DonationPatch: covers `status` and `rejectionReason`, the only fields the source sends.
- `Storage.StorageManager.AddDonation`: `createdAt` and `updatedAt` come from two separate `new Date()` calls in the source, which can differ by a millisecond. Both are modelled as the one stamp `now`.
- The `Array.prototype.sort` in `loadRecentActivity` and `getTopNgos` sorts a local array in place. Both are modelled on values.
- The `limit` of `getTopNgos` is a `nat`. The negative `slice` bounds a negative limit would give are not modelled.
- `AdminManager.RejectNgo` asks for a reason and discards it, so the model's `answer` parameter is unused. Ids come from `max + 1`, so after removing the user with the largest id, the next registration reuses that id. Nothing in the model rules this out.
- `Auth.AuthManager.Login` stores a copy of the user record. Later updates to the store do not refresh `currentUser`, in the source or in the model.
- The lifecycle handlers write their status without checking the prior one. The model does the same (`NgoManager.StatusPatchIsUnguarded`) and imposes no guard the source lacks.
