# Multi-signature wallet, two variants

This project models a multi-signature wallet in two variants. Each variant is an
append-only pool of proposed transactions (destination, value, call data) that
must collect a quorum of approvals from distinct addresses, each authorised when
it approved, before it
may be executed, exactly once.

- **Light** (`light.dfy`, module `Light`). The owner set and `approvalsRequired`
  are fixed at deployment. Owners call `submitTransaction`, `approveTransaction`,
  `revokeApproval` and `executeTransaction`. Failures revert with `not owner`,
  `tx does not exist`, `tx already executed` or `cannot execute tx`, and, by the
  decisions below, with `tx not approved` for a revoke without an approval.
- **Extended** (`extended.dfy`, module `Extended`). The deployer becomes the
  admin and a permitted user, on top of the list passed at deployment. The admin
  may `addUser`, `removeUser` and `changeRequirements`. Each pool entry also
  records `denied` and the `requiredApprovals` in force when it was submitted.
  Failures revert with `only admin`, `only permittedUsers`, `tx does not exist`,
  `tx already executed`, `cannot execute tx` or `tx not approved`, and, by the
  decisions below, with three reasons of their own for adding an existing user,
  removing a non-user and removing the admin.

The two modules have the same structure:

- A `State` datatype holds the contract's storage. The per-(transaction, address)
  `isApproved` flags are held as `approvers: map<nat, set<Address>>`.
- `WellFormed` is the storage invariant. `numApprovals` equals the number of
  flagged addresses. In Light, only owners are ever flagged. An executed entry
  had reached its threshold. In Extended, the permitted-user count equals the
  member set's size, the admin is a member, and no entry is denied.
- Each operation is a function from the old storage to an `Outcome` (`Ok` or
  `Revert(reason)`) and the new storage. A revert leaves the storage unchanged.
- `Step` and `Run` apply a single call and a sequence of calls. Lemmas over
  `Run` hold for every sequence of calls.
- The class `Wallet` is the contract itself. Its fields are updated in place,
  and each method is proved to produce exactly the outcome and storage of its
  specification function.

`light_tests.dfy` and `extended_tests.dfy` restate the repository's test suites
`test/light.js` and `test/extend_v1.js`, one method per test case. Each method
deploys a `Wallet` as the suite's `beforeEach` does, makes the same calls as the
same signers, and returns what the test inspects. Its postconditions are the
test's expectations, and they are proved from the class contracts alone. The
exception is the last two methods of `extended_tests.dfy`, which exercise two
modelling decisions that no test of the suite covers. The
Solidity contracts themselves are not part of this model. The wallet's
behaviour is taken from what those two suites assert.

## Modelling decisions

The test suites leave the following open. Each is a choice made here, not
tested behaviour.

- A duplicate approval succeeds and changes nothing, in both variants. Approvals
  form a set, so an address is never counted twice (`ApproveTwice`).
- Light checks ownership first in all four transaction operations. The light
  revoke test forces only part of this: on an existing, pending entry, a
  non-owner's `revokeApproval` reverts with `not owner` rather than
  `tx not approved`. Checking ownership before existence is a choice made here.
  Light then checks existence, then that the entry is not executed. A revoke by an owner who has not approved
  reverts with `tx not approved`, the extended variant's message. Only owners
  may execute.
- Extended `approveTransaction` checks existence, then membership, then that the
  entry is not executed.
- Extended `revokeApproval` needs an active approval, not current membership. A
  removed user can therefore still withdraw an approval they gave.
- Extended `executeTransaction` checks existence, then membership, then that the
  entry is not executed. It then compares `numApprovals` against the entry's
  snapshot `requiredApprovals`, not the current `requirements`.
- `removeUser` does not strip approvals the user already gave; they keep
  counting.
- `addUser` of an existing member reverts with reason `AlreadyPermitted`.
  `removeUser` of a non-member reverts with reason `NotPermitted`. `removeUser`
  of the admin reverts with reason `AdminNotRemovable`, so the admin is always
  a permitted user and the set of permitted users is never empty. The message
  strings of these three are not known; the model's strings are placeholders.
- `changeRequirements` accepts any non-negative value.
- Neither constructor validates its arguments. The owner or member set is the
  set of listed addresses; Extended also adds the deployer. The Extended count
  is the size of that set. `InitCount` shows it is the list's length plus one
  when the list repeats no address and leaves out the deployer, as in the
  suite.
- The Light constructor does not add the deployer to the owners. The light
  suite lists the deployer explicitly among the owners.

## Model

| member | source | states |
|---|---|---|
| Common.DistinctCount | test/extend_v1.js:13-25 | a constructor list with no repeated address names exactly as many addresses as it is long |
| Light.Reason | test/light.js:64-96 | every revert reason carries a non-empty message: `not owner`, `tx does not exist`, `tx already executed`, `cannot execute tx`, and `tx not approved` for the untested revoke-without-approval case |
| Light.ReasonsDistinct | test/light.js:64-96 | no two revert reasons share a message, so a message identifies its reason |
| Light.Approved | test/light.js:56-58 | the getter `isApproved(id, p)`: on a well-formed storage a set flag belongs to an existing entry and to an owner |
| Light.Init | test/light.js:15-33 | after deployment the owners are exactly the listed addresses, `approvalsRequired` is the argument, the pool is empty and the invariant holds |
| Light.Submit | test/light.js:38-45 | succeeds iff the caller is an owner, else reverts `not owner` with no change; on success appends exactly one entry `(to, value, data, executed = false, numApprovals = 0)` with no approvals and leaves the earlier entries as they were |
| Light.Approve | test/light.js:49-65 | reverts `not owner`, `tx does not exist` or `tx already executed` in that order, with no change; otherwise flags the caller on that entry only, raising `numApprovals` by one unless the caller was already flagged; the invariant is kept |
| Light.Revoke | test/light.js:88-106 | reverts `not owner`, `tx does not exist`, `tx already executed` or `tx not approved` in that order, with no change; otherwise unflags the caller and lowers `numApprovals` by one, touching no other entry |
| Light.Execute | test/light.js:69-85 | reverts `not owner`, `tx does not exist`, `tx already executed` or `cannot execute tx` in that order; succeeds iff the caller is an owner and the pending entry has at least `approvalsRequired` distinct approvals, and then sets only `executed` |
| Light.Step | test/light.js:88-97 | no call changes the owners or threshold, removes an entry, alters an entry's destination, value or data, or touches an executed entry |
| Light.Run | test/light.js:49-59 | every sequence of calls from a well-formed storage leaves a well-formed storage: `numApprovals` always equals the number of owners flagged by `isApproved`, only owners are flagged, and executed entries had met the threshold |
| Light.RunEvolves | test/light.js:88-97 | over any sequence of calls the owners and threshold stay fixed, the pool only grows, proposals keep their fields, and executed entries are final |
| Light.ExecutedIsFinal | test/light.js:88-97 | once an entry is executed, no later sequence of calls changes it, and every further execute of it by an owner reverts `tx already executed` |
| Light.ApprovalsBounded | test/light.js:49-59 | an entry never has more approvals than there are owners |
| Light.ApproveThenRevoke | test/light.js:99-106 | an owner's approve followed by the same owner's revoke restores the storage exactly, `numApprovals` included |
| Light.ApproveTwice | test/light.js:49-59 | approving twice gives the same outcome and storage as approving once |
| Light.Wallet.constructor | test/light.js:15-17 | the deployed wallet's storage is `Init(owners, required)` |
| Light.Wallet.IsOwner | test/light.js:29-33 | the getter `isOwner(p)` holds exactly when `p` is in the wallet's fixed owner set |
| Light.Wallet.IsApproved | test/light.js:56-58 | the getter `isApproved(id, p)` on the object agrees with `Approved` on its storage |
| Light.Wallet.SubmitTransaction | test/light.js:38-45 | the outcome and new storage are those of `Submit` |
| Light.Wallet.ApproveTransaction | test/light.js:49-65 | the outcome and new storage are those of `Approve` |
| Light.Wallet.RevokeApproval | test/light.js:88-106 | the outcome and new storage are those of `Revoke` |
| Light.Wallet.ExecuteTransaction | test/light.js:69-85 | the outcome and new storage are those of `Execute` |
| LightTests.Message | test/light.js:64-96 | the message the suite compares against is empty exactly on success, and it equals a reason's message exactly when the call reverted with that reason (by `ReasonsDistinct`) |
| LightTests.RightNumberOfRequiredApprovals | test/light.js:25-27 | `approvalsRequired` is 2 after deployment |
| LightTests.RightOwners | test/light.js:29-33 | `isOwner` holds for the deployer and addr1, not for addr2 |
| LightTests.SubmitCorrectTransaction | test/light.js:38-45 | entry 0 has `to` = addr1, `value` 10, `data` 0x1234, is not executed and has no approvals |
| LightTests.ApprovalAddsOne | test/light.js:49-59 | `numApprovals` goes from 0 to 1 and `isApproved(0, deployer)` holds |
| LightTests.NonOwnerCannotApprove | test/light.js:61-65 | addr2's approve reverts `not owner` |
| LightTests.ExecuteWithoutEnoughApprovals | test/light.js:70-74 | with one approval of two, execute reverts `cannot execute tx` |
| LightTests.ExecuteWithEnoughApprovals | test/light.js:75-80 | with two owners' approvals, execute succeeds and marks the entry executed |
| LightTests.ExecuteNonExistingTransaction | test/light.js:82-84 | executing entry 2 of an empty pool reverts `tx does not exist` |
| LightTests.RevokeRejections | test/light.js:89-97 | revoke reverts `not owner` for addr2, `tx does not exist` for entry 1, and `tx already executed` after execution |
| LightTests.RevokeRemovesApproval | test/light.js:99-106 | `numApprovals` is 1 after approve and 0 after revoke |
| Extended.Reason | test/extend_v1.js:46-150 | every revert reason carries a non-empty message: `only admin`, `only permittedUsers`, `tx does not exist`, `tx already executed`, `cannot execute tx`, `tx not approved`, and placeholders for the three untested membership errors |
| Extended.ReasonsDistinct | test/extend_v1.js:46-150 | no two revert reasons share a message, so a message identifies its reason |
| Extended.Approved | test/extend_v1.js:56-62 | the getter `isApproved(id, p)`: on a well-formed storage a set flag belongs to an existing entry with at least one approval |
| Extended.Init | test/extend_v1.js:13-29 | after deployment the admin is the deployer, the members are the deployer plus the listed users, `requirements` is the argument, the pool is empty and the invariant holds |
| Extended.InitCount | test/extend_v1.js:13-25 | the permitted-user count is the list's length plus one when the list repeats no one and leaves out the deployer |
| Extended.Submit | test/extend_v1.js:34-49 | succeeds iff the caller is a member, else reverts `only permittedUsers` with no change; on success appends exactly one entry with the given fields, `executed` and `denied` false, no approvals, and `requiredApprovals` equal to the current `requirements` |
| Extended.Approve | test/extend_v1.js:52-83 | reverts `tx does not exist`, `only permittedUsers` or `tx already executed` in that order, with no change; otherwise flags the caller on that entry only, raising `numApprovals` by one unless already flagged |
| Extended.Revoke | test/extend_v1.js:103-121 | reverts `tx does not exist`, `tx already executed` or `tx not approved` in that order, with no change; otherwise unflags the caller and lowers `numApprovals` by one, touching no other entry |
| Extended.Execute | test/extend_v1.js:85-101 | reverts `tx does not exist`, `only permittedUsers`, `tx already executed` or `cannot execute tx` in that order; succeeds iff the caller is a member and the pending entry's approvals reach its own `requiredApprovals`, and then sets only `executed` |
| Extended.AddMember | test/extend_v1.js:124-150 | a non-admin caller gets `only admin` with no change; the admin adding a non-member grows the member set by that address and the count by exactly one, changing nothing else |
| Extended.RemoveMember | test/extend_v1.js:134-150 | a non-admin caller gets `only admin` with no change; removing the admin itself reverts (a modelling decision), as does removing a non-member; the admin removing another member shrinks the set by that address and the count by one, leaving the pool and all approvals as they were |
| Extended.ChangeThreshold | test/extend_v1.js:153-162 | succeeds iff the caller is the admin, else reverts `only admin` with no change; on success only `requirements` changes |
| Extended.Step | test/extend_v1.js:153-162 | no call changes the admin, removes an entry, alters an entry's proposal or its `requiredApprovals` snapshot, or touches an executed entry |
| Extended.Run | test/extend_v1.js:53-63 | every sequence of calls from a well-formed storage leaves a well-formed storage: `numApprovals` always equals the number of users flagged by `isApproved`, the permitted-user count equals the member set's size, no entry is denied, and executed entries had met their snapshot requirement |
| Extended.RunEvolves | test/extend_v1.js:153-162 | over any sequence of calls the admin stays, the pool only grows, proposals and snapshots keep their values, and executed entries are final |
| Extended.SnapshotIsKept | test/extend_v1.js:154-162 | an entry's `requiredApprovals` survives every later sequence of calls, requirement changes included |
| Extended.AdminAlwaysPermitted | test/extend_v1.js:13-18 | over any sequence of calls the deployer stays admin and a permitted user, so at least one user is permitted |
| Extended.ExecutedIsFinal | test/extend_v1.js:103-112 | once an entry is executed, no later sequence of calls changes it, and no further execute of it succeeds |
| Extended.ExecuteIgnoresCurrentRequirements | test/extend_v1.js:154-162 | changing `requirements` never changes the outcome of an execute |
| Extended.ApproveThenRevoke | test/extend_v1.js:114-121 | a user's approve followed by the same user's revoke restores the storage exactly |
| Extended.ApproveTwice | test/extend_v1.js:53-63 | approving twice gives the same outcome and storage as approving once |
| Extended.RemovalKeepsApprovals | test/extend_v1.js:134-145 | after the admin removes a user, that user is no longer a member but its approvals stay flagged and counted |
| Extended.ApprovalsCanExceedMembers | test/extend_v1.js:134-145 | consequence of keeping a removed user's approval: deploy with one user and requirement 1, both approve entry 0, remove the user; the entry then has 2 approvals while `permittedUsers` is 1 |
| Extended.Wallet.constructor | test/extend_v1.js:13-18 | the deployed wallet's storage is `Init(deployer, users, required)` |
| Extended.Wallet.IsApproved | test/extend_v1.js:56-62 | the getter `isApproved(id, p)` on the object agrees with `Approved` on its storage |
| Extended.Wallet.SubmitTransaction | test/extend_v1.js:34-49 | the outcome and new storage are those of `Submit` |
| Extended.Wallet.ApproveTransaction | test/extend_v1.js:52-83 | the outcome and new storage are those of `Approve` |
| Extended.Wallet.RevokeApproval | test/extend_v1.js:103-121 | the outcome and new storage are those of `Revoke` |
| Extended.Wallet.ExecuteTransaction | test/extend_v1.js:85-101 | the outcome and new storage are those of `Execute` |
| Extended.Wallet.AddUser | test/extend_v1.js:125-132 | the outcome and new storage are those of `AddMember` |
| Extended.Wallet.RemoveUser | test/extend_v1.js:134-145 | the outcome and new storage are those of `RemoveMember` |
| Extended.Wallet.ChangeRequirements | test/extend_v1.js:154-162 | the outcome and new storage are those of `ChangeThreshold` |
| ExtendedTests.Message | test/extend_v1.js:46-150 | the message the suite compares against is empty exactly on success, and it equals a reason's message exactly when the call reverted with that reason (by `ReasonsDistinct`) |
| ExtendedTests.CorrectNumberOfPermittedUsers | test/extend_v1.js:23-25 | `permittedUsers` is the list's length plus one |
| ExtendedTests.CorrectNumberOfRequiredApprovals | test/extend_v1.js:27-29 | `requirements` is 2 after deployment |
| ExtendedTests.SubmitWithCorrectParameters | test/extend_v1.js:34-44 | entry 0 has `to` = addr2, `value` 10, `data` 0x1234, is neither executed nor denied, has no approvals, and records `requiredApprovals` equal to `requirements` |
| ExtendedTests.NonMemberCannotSubmit | test/extend_v1.js:46-49 | addr3's submit reverts `only permittedUsers` |
| ExtendedTests.ApprovalAddsOne | test/extend_v1.js:53-63 | `numApprovals` goes from 0 to 1 and `isApproved(0, admin)` holds |
| ExtendedTests.NonMemberCannotApprove | test/extend_v1.js:65-69 | addr3's approve reverts `only permittedUsers` |
| ExtendedTests.ApproveNonExistingTransaction | test/extend_v1.js:71-73 | approving entry 1 of an empty pool reverts `tx does not exist` |
| ExtendedTests.ApproveExecutedTransaction | test/extend_v1.js:75-82 | approving an executed entry reverts `tx already executed` |
| ExtendedTests.ExecuteWithoutEnoughApprovals | test/extend_v1.js:86-90 | with one approval of two, execute reverts `cannot execute tx` |
| ExtendedTests.ExecuteWithEnoughApprovals | test/extend_v1.js:91-96 | with the admin's and addr1's approvals, execute succeeds |
| ExtendedTests.ExecuteNonExistingTransaction | test/extend_v1.js:98-100 | executing entry 2 of an empty pool reverts `tx does not exist` |
| ExtendedTests.RevokeRejections | test/extend_v1.js:104-112 | revoke reverts `tx not approved` for addr2, `tx does not exist` for entry 1, and `tx already executed` after execution |
| ExtendedTests.RevokeRemovesApproval | test/extend_v1.js:114-121 | `numApprovals` is 1 after approve and 0 after revoke |
| ExtendedTests.AddNewUser | test/extend_v1.js:125-132 | `permittedUsers` is the list's length plus two after `addUser`, as line 131 asserts; that it was the list's length plus one before is what the assignment at line 127 evidently meant, not an assertion of the suite |
| ExtendedTests.RemovedUserCannotSubmit | test/extend_v1.js:134-145 | addr1 can submit before its removal and gets `only permittedUsers` after it |
| ExtendedTests.OnlyAdminAddsOrRemoves | test/extend_v1.js:147-150 | addr3's `addUser` and `removeUser` both revert `only admin` |
| ExtendedTests.ChangeRequirementsSnapshots | test/extend_v1.js:154-162 | entry 0 records requirement 2; after `changeRequirements(3)` entry 1 records 3 |
| ExtendedTests.RaisedRequirementSparesPendingEntry | test/extend_v1.js:154-162 | modelling decision: an entry submitted under 2 still executes with two approvals after the requirement becomes 3 |
| ExtendedTests.RemovedUsersApprovalStillCounts | test/extend_v1.js:134-145 | modelling decision: a removed user's earlier approval stays flagged and helps reach quorum |

## Left out

- The Solidity contracts are not part of this model. Behaviour comes from the two test suites, with the decisions listed above where the suites are silent.
- The external call a successful `executeTransaction` makes to `to` with `value` and `data` is not modelled. Execution is the `executed` flag alone, and whether a failed call would undo it is not modelled.
- `denied` has no semantics beyond being false on every entry. No exercised operation sets it.
- Events, gas, and the ether balance the wallet holds are not modelled.
- `uint256` bounds are not modelled. Values, indices and counts are unbounded naturals; none of the modelled operations can overflow, and `numApprovals` is never decremented below zero.
- Addresses are opaque naturals. The signer selection (`connect`), deployment, async calls and assertion library of the test harness are plumbing, so each call takes its caller as a parameter.
- `submitTransaction` returns no transaction index. The new entry's index is the pool length before the call.
- The logging lines in the extended suite and the assignment inside an `expect` at test/extend_v1.js:127 assert nothing, so they are not modelled.
- The extended suite's `it.only` means only its last test runs there. All of its cases are modelled as intended behaviour.
- Light.Wallet.constructor: does not check the owner list or the threshold (no empty-list, zero-address, uniqueness or range checks); any such validation in the contract is not modelled.
- Extended.Wallet.constructor: does not check the user list or the requirement either.
- Extended.Run: an entry's `numApprovals` is not bounded by `permittedUsers`. A removed user's approval keeps counting, so after a `removeUser` an entry can hold more approvals than there are permitted users (`ApprovalsCanExceedMembers`). `Light.ApprovalsBounded` therefore has no Extended counterpart.
