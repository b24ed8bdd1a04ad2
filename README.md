# AZ Groups and Smart Contract Hub, modelled in Dafny

This project models three ink! contracts and the types they share:

- **Groups** (`az_groups/lib.rs`). Named groups live in a case-insensitive name index. Each (group, account) pair holds a role, ranked Banned 0 < Applicant 1 < Member 2 < Admin 3 < SuperAdmin 4. The ranks gate joining, leaving, kicking, promoting and renaming. Other contracts call `validate_membership`, a read-only check with a fixed error order.
- **Smart Contract Hub** (`az_smart_contract_hub/lib.rs`). A directory of deployed contracts. The owner of an AZERO.ID domain lists a contract under that domain, optionally tied to a group. The owner can later edit the mutable part of the listing. The domain resolver and the Groups membership check are other contracts, so the model passes them in as function parameters (`Hub.Resolver`, `Hub.Membership`).
- **The earlier rating Hub** (`lib.rs`). Listings carry like and dislike counters. Each account rates a listing -1, 0 or 1, and the creator switches the listing on and off.
- **Errors and validation** (`az_groups/errors.rs`, `errors.rs`, `validations.rs`). These are the two error enums, their `From` conversions and the presence validator.

Each contract is a Dafny `class` whose fields are the contract's storage: maps for the ink! `Mapping`s and a `U32` counter. Each handler is a `method` that changes those fields in the source's order, with the same early returns. Its contract ties the result and the new storage to a function of the old storage. For example, `GroupsCreate` ensures `Step(r, State()) == GroupsCreateStep(old(State()), caller, name)`. Those step functions state the error order, that failure changes nothing, and the exact new state. Lemmas beside them prove what the source relies on:
- the name index stays consistent with the group records;
- every group always keeps a SuperAdmin;
- listing ids stay sequential;
- like and dislike counters equal the number of accounts rating 1 and -1.

The calling account (`Self::env().caller()`) is an explicit `caller` parameter.

Modules: `Primitives` (integer widths, `Option`, `Result`), `InkEnv` (`AccountId`, `LangError`, the environment error), `Text` (Rust's `trim`, and lower-casing), `GroupsErrors`, `Groups`, `HubErrors`, `Validations`, `Boundary` (the Groups error as it crosses into the Hub), `Hub` and `RatingHub`.

Where the written description of the system and the code differ, the model follows the code:
- `groups_find_by_name` lower-cases its argument but does not trim it (`az_groups/lib.rs:289`). `" Foo"` does not find group `"Foo"`.
- `groups_update` decides whether to rename by comparing the untrimmed argument with the stored name (`az_groups/lib.rs:317`). An argument that differs only in surrounding whitespace goes through the rename path and stores the same name again.
- The Hub's declared error enum has no `UnprocessableEntity` variant (`errors.rs:8-15`), yet `validations.rs:5` and `az_smart_contract_hub/lib.rs:158` construct one. `HubErrors.HubError` has the variant.
- The Hub declares its own `Role` enum with the same five variants in the same order (`az_smart_contract_hub/lib.rs:26-32`). The model reuses `Groups.Role` for it.

One place deliberately departs from the code. The Hub reads the Groups contract's error through its own five-variant copy of the enum (`errors.rs:34-40`), and that misreads it (see "## Findings"). `Boundary` models the copy as written and shows the misreading. The Hub model itself (`HubErrors.HubError.AZGroupsError`, `Hub.Membership`, `Hub.ValidateMembership`, `Hub.CreateStep`, `Hub.UpdateStep`) carries the Groups contract's own seven-variant error, as read by `Boundary.DecodeGroupsError`. "## Left out" lists what this changes.

## Model

| member | source | states |
|---|---|---|
| `Groups.Role.ToInt` | az_groups/lib.rs:26-36 | ranks lie in 0..4; rank 0 is exactly Banned and rank 4 exactly SuperAdmin |
| `Groups.RoleIntRoundTrip` | az_groups/lib.rs:19-36 | roles and ranks 0..4 correspond one to one, in both directions |
| `Groups.RoleOrderIsTotal` | az_groups/lib.rs:26-36 | comparing roles by rank is a total order from Banned up to SuperAdmin |
| `Groups.FormatGroupName` | az_groups/lib.rs:366-368 | the formatted name is already trimmed, and is empty exactly when the input is all whitespace |
| `Groups.ValidateGroupNamePresence` | az_groups/lib.rs:370-378 | Ok iff the name is non-empty; otherwise "Name can't be blank" |
| `Groups.NameKeysUnique` | az_groups/lib.rs:239-271 | in a consistent index, two groups with the same lower-cased name are the same group |
| `Groups.CreateKeepsIndexConsistent` | az_groups/lib.rs:254-262 | inserting group `total` under a fresh key keeps ids 0..total and the name index in agreement |
| `Groups.RenameKeepsIndexConsistent` | az_groups/lib.rs:317-330 | removing the old key and inserting the new one keeps the index consistent when the new key is the old one or is untaken |
| `Groups.CreateKeepsInvariant` | az_groups/lib.rs:254-271 | `groups_create`'s writes keep the index consistent, memberships inside existing groups and every group led by a SuperAdmin |
| `Groups.UpdateKeepsInvariant` | az_groups/lib.rs:317-333 | `groups_update`'s writes keep the whole storage invariant |
| `Groups.SelfLeaveBoundary` | az_groups/lib.rs:171-175 | leaving oneself is allowed exactly for Applicant, Member and Admin |
| `Groups.KickAuthority` | az_groups/lib.rs:176-179 | a kick is allowed exactly when the caller is at least Admin and ranks at least as high as the target; only a SuperAdmin can kick a SuperAdmin |
| `Groups.PromotionCeiling` | az_groups/lib.rs:208-223 | a permitted role change never grants above the caller's own rank; an Admin never creates a SuperAdmin or touches one |
| `Groups.JoinKeepsGroupsLed` | az_groups/lib.rs:133-145 | joining as an Applicant never leaves a group without a SuperAdmin |
| `Groups.DestroyKeepsGroupsLed` | az_groups/lib.rs:158-181 | a permitted leave or kick never removes a group's last SuperAdmin |
| `Groups.UpdateKeepsGroupsLed` | az_groups/lib.rs:200-227 | a permitted role change never demotes a group's last SuperAdmin |
| `Groups.GroupsShow` | az_groups/lib.rs:297-301 | Ok with the stored group iff the id is stored, else NotFound("Group"); in a valid state the group carries the id asked for |
| `Groups.GroupUsersShow` | az_groups/lib.rs:189-197 | Ok with the stored record iff the pair is stored, else NotFound("GroupUser"); a stored membership belongs to an existing group |
| `Groups.GroupsFindByName` | az_groups/lib.rs:288-294 | finds a group iff the lower-cased argument is an indexed key, and then the found group's key equals that key; otherwise NotFound("Group") |
| `Groups.FindByNameFindsEveryGroup` | az_groups/lib.rs:288-294 | every group is found by any spelling with the same lower-cased key |
| `Groups.IndexKeysAreOwnKeys` | az_groups/lib.rs:249-262 | every key in `group_id_by_name` is already lower-case, and `groups_find_by_name` given that key finds the group it indexes |
| `Groups.ValidateMembership` | az_groups/lib.rs:349-364 | the first of NotFound("Group"), GroupDisabled, NotFound("GroupUser"), NotAMember applies, in that order; Ok iff the group exists and is enabled and the account ranks at least Member, returning its role |
| `Groups.ValidateGroupNameUniqueness` | az_groups/lib.rs:380-388 | Ok iff the key is not indexed; otherwise "Group has already been taken" |
| `Groups.GroupsCreateStep` | az_groups/lib.rs:239-285 | blank name, then the limit, then a taken key, each changing nothing; on success the new group has id = old total, the trimmed name and enabled = true, is indexed under its key, the caller is its SuperAdmin and the total grows by one |
| `Groups.GroupsUpdateStep` | az_groups/lib.rs:304-343 | missing group, then a missing caller record, then a caller who is not SuperAdmin; a changed name must be non-blank after trimming and, if its key changed, untaken; on rename the old key goes and the new key maps to the id; `enabled` is always overwritten; a failure changes nothing |
| `Groups.GroupUsersCreateStep` | az_groups/lib.rs:130-155 | missing group, then any existing record (Banned included) is refused; otherwise exactly (group, caller) becomes an Applicant |
| `Groups.GroupUsersDestroyStep` | az_groups/lib.rs:162-186 | a missing caller record, then a missing target record give NotFound("GroupUser"); success iff `MayDestroy` holds, otherwise Unauthorised; on success exactly the target's record is removed |
| `Groups.GroupUsersUpdateStep` | az_groups/lib.rs:200-236 | the six refusals in source order (self-change, missing caller, caller below Admin, missing target, caller below target, new role above caller); on success only the target's role changes |
| `Groups.GroupsCreateKeepsValid` | az_groups/lib.rs:239-285 | `groups_create` preserves the storage invariant |
| `Groups.GroupsUpdateKeepsValid` | az_groups/lib.rs:304-343 | `groups_update` preserves the storage invariant, whether the name changes or not |
| `Groups.GroupUsersCreateKeepsValid` | az_groups/lib.rs:130-155 | `group_users_create` preserves the storage invariant |
| `Groups.GroupUsersDestroyKeepsValid` | az_groups/lib.rs:162-186 | `group_users_destroy` preserves the storage invariant |
| `Groups.GroupUsersUpdateKeepsValid` | az_groups/lib.rs:200-236 | `group_users_update` preserves the storage invariant |
| `Groups.CreatorIsSuperAdmin` | az_groups/lib.rs:264-268 | right after creation the creator is SuperAdmin, passes `validate_membership`, and the group is found by its trimmed name |
| `Groups.RenameMovesKey` | az_groups/lib.rs:321-330 | after an update the group is found under its new name, and no longer under the old one when the key changed |
| `Groups.CreateRefusesSameKey` | az_groups/lib.rs:248-250 | once a name is created, a second create whose trimmed lower-cased form is the same is refused with "Group has already been taken" |
| `Groups.AZGroups.constructor` | az_groups/lib.rs:120-127 | the contract starts with no groups, no index entries, total 0 and no memberships, which satisfies the invariant |
| `Groups.AZGroups.GroupsCreate` | az_groups/lib.rs:239-285 | result and new storage are those of `GroupsCreateStep` on the old storage |
| `Groups.AZGroups.GroupsUpdate` | az_groups/lib.rs:304-343 | result and new storage are those of `GroupsUpdateStep` on the old storage |
| `Groups.AZGroups.GroupUsersCreate` | az_groups/lib.rs:130-155 | result and new storage are those of `GroupUsersCreateStep` |
| `Groups.AZGroups.GroupUsersDestroy` | az_groups/lib.rs:162-186 | result and new storage are those of `GroupUsersDestroyStep` |
| `Groups.AZGroups.GroupUsersUpdate` | az_groups/lib.rs:200-236 | result and new storage are those of `GroupUsersUpdateStep` |
| `Groups.Serve` | az_groups/lib.rs:130-343 | answering any sequence of the five state-changing messages on one instance, successful or not, keeps the storage invariant after every call |
| `GroupsErrors.FromEnvError` | az_groups/errors.rs:17-21 | the environment error becomes `InkEnvError` carrying its debug text |
| `GroupsErrors.FromLangError` | az_groups/errors.rs:22-26 | a dispatch failure becomes `ContractCall` with the same payload |
| `GroupsErrors.ConversionsAreTransport` | az_groups/errors.rs:17-26 | neither conversion yields NotFound, Unauthorised, UnprocessableEntity, GroupDisabled or NotAMember |
| `GroupsErrors.MembershipFailuresDistinct` | az_groups/errors.rs:10-13 | GroupDisabled, NotAMember and NotFound are pairwise distinct for any entity name |
| `HubErrors.FromGroupsError` | errors.rs:16-20 | with the corrected reading, a Groups error travels unchanged inside the `AZGroupsError` variant |
| `HubErrors.FromEnvError` | errors.rs:21-25 | the environment error becomes `InkEnvError` carrying its debug text |
| `HubErrors.FromLangError` | errors.rs:26-30 | a dispatch failure becomes `ContractCall` with the same payload |
| `HubErrors.FromGroupsErrorInjective` | errors.rs:16-20 | distinct Groups errors stay distinct after wrapping |
| `HubErrors.ConversionsNeverBusiness` | errors.rs:16-30 | no conversion produces NotFound, Unauthorised, Unchanged or UnprocessableEntity |
| `Validations.ValidatePresenceOf` | validations.rs:3-11 | Ok iff the string is non-empty; otherwise UnprocessableEntity("<field> can't be blank") |
| `Validations.BlankMessageIgnoresInput` | validations.rs:4-7 | the failure depends only on the field name, not on the checked string |
| `Validations.PresenceAfterTrim` | validations.rs:3-11 | the validator does not trim, so any non-empty string passes; after trimming it rejects exactly the all-whitespace inputs |
| `Text.TrimEmptyIffAllWhitespace` | az_groups/lib.rs:366-368 | trimming yields the empty string exactly when every character is Unicode white space |
| `Text.TrimIdempotent` | az_groups/lib.rs:366-368 | trimming a trimmed string changes nothing |
| `Text.ToLowerIdempotent` | az_groups/lib.rs:249 | lower-casing is idempotent, so a stored key is its own key |
| `Boundary.EncodeGroupsError` | az_groups/errors.rs:8-16 | a Groups error is sent as its declaration index 0..6 with its field; exactly the three field-less variants send no payload |
| `Boundary.DecodeMirror` | errors.rs:34-40 | the Hub reads indices against its five-variant copy; indices above 4 fail |
| `Boundary.MirrorMisreadsMembershipErrors` | errors.rs:34-40 | as written, NotFound(e) arrives as UnprocessableEntity(e), NotAMember as Unauthorised and InkEnvError(t) as NotFound(t); GroupDisabled, Unauthorised and UnprocessableEntity fail to decode |
| `Boundary.MirrorFaithfulOnlyForContractCall` | errors.rs:34-40 | as written, a Groups error reaches the Hub as itself only when it is ContractCall |
| `Boundary.DecodeGroupsError` | az_groups/errors.rs:8-16 | reading with the Groups contract's own declaration; indices above 6 fail |
| `Boundary.DecodeEncodeRoundTrip` | az_groups/errors.rs:8-16 | decoding an encoded Groups error gives it back |
| `Boundary.EncodeDecodeRoundTrip` | az_groups/errors.rs:8-16 | whatever decodes is exactly the encoding of its result |
| `Boundary.MembershipFailureReachesHub` | az_smart_contract_hub/lib.rs:306-323 | with the corrected reading, each membership failure reaches the Hub's caller as `AZGroupsError(e)` |
| `Hub.GetConfig` | az_smart_contract_hub/lib.rs:120-126 | reports the two stored addresses and the listing count |
| `Hub.Show` | az_smart_contract_hub/lib.rs:129-135 | Ok with the stored listing iff the id is stored, else NotFound("SmartContract"); in a valid state exactly ids below the count are found, each carrying its own id |
| `Hub.FormatUrl` | az_smart_contract_hub/lib.rs:300-302 | the formatted URL is trimmed, and the ABI-link presence check then refuses it exactly when the input is all whitespace |
| `Hub.AddressByDomain` | az_smart_contract_hub/lib.rs:272-294 | Ok with the resolved address iff the resolver answers; any resolver failure becomes NotFound("Domain") |
| `Hub.ValidateMembership` | az_smart_contract_hub/lib.rs:306-323 | with the corrected reading of the answer, Ok iff the Groups answer is Ok; otherwise the Groups error wrapped as `AZGroupsError` |
| `Hub.CreateStep` | az_smart_contract_hub/lib.rs:143-213 | limit, then resolver failure, then a domain owned by someone else, then a membership error (only when a group is given), then a blank trimmed ABI link; failures change nothing; on success the listing is stored under the old count with the caller, enabled = true, the trimmed ABI link and every other argument verbatim, and the count grows by one |
| `Hub.UpdateStep` | az_smart_contract_hub/lib.rs:217-268 | unknown id, then a caller who is not the owner, then, when the domain changes, resolver failure or another owner, then a membership error; on success exactly `enabled`, domain, group, audit URL, project name, website and GitHub are replaced; failures change nothing |
| `Hub.CreateKeepsValid` | az_smart_contract_hub/lib.rs:157-190 | `create` keeps listing ids exactly 0..count-1, each stored under itself |
| `Hub.UpdateKeepsValid` | az_smart_contract_hub/lib.rs:244-250 | `update` keeps listing ids exactly 0..count-1, each stored under itself |
| `Hub.CreatedIsShown` | az_smart_contract_hub/lib.rs:172-190 | after `create`, `show(id)` returns the new listing, the config counts it, and its ABI link is the trimmed input |
| `Hub.CreateAtLimitConsultsNothing` | az_smart_contract_hub/lib.rs:157-161 | at the limit `create` gives the same answer whatever the resolver and the Groups contract would say |
| `Hub.NoGroupConsultsNoMembership` | az_smart_contract_hub/lib.rs:166-168 | without a group id neither handler depends on the Groups contract |
| `Hub.UpdateKeepingDomainConsultsNoResolver` | az_smart_contract_hub/lib.rs:235-240 | `update` depends on the resolver only when the domain changes |
| `Hub.CreateGatedByGroups` | az_smart_contract_hub/lib.rs:166-168 | with the Groups contract answering and its answer read correctly, a listing tied to a group is created only for a member (rank at least Member) of an enabled group; a disabled group refuses with `AZGroupsError(GroupDisabled)` (as written, that call traps instead: `Boundary.MirrorMisreadsMembershipErrors`) |
| `Hub.AZSmartContractHub.constructor` | az_smart_contract_hub/lib.rs:109-116 | stores the two addresses, no listings and count 0 |
| `Hub.AZSmartContractHub.Create` | az_smart_contract_hub/lib.rs:143-213 | result and new storage are those of `CreateStep` on the old storage |
| `Hub.AZSmartContractHub.Update` | az_smart_contract_hub/lib.rs:217-268 | result and new storage are those of `UpdateStep` on the old storage |
| `RatingHub.PreviousRating` | lib.rs:141 | the stored rating, or 0 when the account has none |
| `RatingHub.RatersAfterSet` | lib.rs:146-165 | changing one account's rating from prev to v changes the number of accounts rating w by [v = w] - [prev = w] |
| `RatingHub.RatersOfOtherListing` | lib.rs:163-165 | rating one listing leaves every other listing's tallies alone |
| `RatingHub.RatersDisjoint` | lib.rs:65 | ratings are keyed by (listing, account), so no account is both a liker and a disliker of a listing, and the two sets together are no larger than the stored ratings |
| `RatingHub.OneAccountOneVote` | lib.rs:130-165 | in a valid state a listing's likes plus dislikes never exceed the number of stored ratings: each account's vote counts once |
| `RatingHub.Show` | lib.rs:79-87 | Ok with the stored listing iff the id is stored, else NotFound("SmartContract"); in a valid state its counters match the ratings |
| `RatingHub.CreateStep` | lib.rs:94-127 | the listing gets id = old count, one like, no dislikes, enabled = true and the caller; the caller's rating of it is 1; the count grows by one |
| `RatingHub.RateStep` | lib.rs:130-176 | unknown id, then a rating outside -1..1, then an unchanged rating (absent counting as 0); on success likes move by [new = 1] - [prev = 1] and dislikes by [new = -1] - [prev = -1], the rating is stored and nothing else changes; failures change nothing |
| `RatingHub.ToggleEnabledStep` | lib.rs:179-204 | unknown id, then a caller other than the creator, then an unchanged value; otherwise only `enabled` changes |
| `RatingHub.ValidRateNeverUnderflows` | lib.rs:146-162 | in a valid state the counters `rate` decrements are positive, so the `-= 1` steps never underflow |
| `RatingHub.CreateKeepsValid` | lib.rs:100-115 | `create` keeps ids sequential and the counters equal to the numbers of 1- and -1-ratings |
| `RatingHub.RateKeepsValid` | lib.rs:146-165 | `rate` keeps the counters equal to the numbers of 1- and -1-ratings |
| `RatingHub.ToggleEnabledKeepsValid` | lib.rs:179-204 | `toggle_enabled` keeps the storage invariant |
| `RatingHub.RateThenWithdraw` | lib.rs:146-165 | rating 1 or -1 and then withdrawing with 0 restores the listing exactly |
| `RatingHub.AZSmartContractHub.constructor` | lib.rs:69-75 | starts with no listings, count 0 and no ratings, which satisfies the invariant |
| `RatingHub.AZSmartContractHub.Create` | lib.rs:94-127 | result and new storage are those of `CreateStep` |
| `RatingHub.AZSmartContractHub.Rate` | lib.rs:130-176 | result and new storage are those of `RateStep` |
| `RatingHub.AZSmartContractHub.ToggleEnabled` | lib.rs:179-204 | result and new storage are those of `ToggleEnabledStep` |

## Left out

- Events (`emit_event` and the `#[ink(event)]` structs) are output for off-chain indexers and are not modelled.
- ink! `Mapping` storage is modelled as Dafny maps. Byte-level SCALE encoding is not modelled. `Boundary` models only the variant index and the field of the Groups error, the one place where the encoding changes behaviour.
- The cross-contract call machinery (`build_call`, selectors) and the `cfg!(test)` stubs in `address_by_domain` and `validate_membership` are not modelled. The calls are the parameters `Hub.Resolver` and `Hub.Membership`. A transport failure of the call itself (a trap in `invoke`) is not modelled.
- `Text.ToLower` lower-cases ASCII letters only. Rust's `to_lowercase` also folds non-ASCII letters, so two non-ASCII names that Rust treats as the same key are different keys here. `trim` uses the full Unicode White_Space list, as Rust does.
- The `Debug` rendering inside the environment-error conversions is not modelled. `InkEnv.EnvError` carries its debug text as an opaque string.
- `RatingHub.AZSmartContractHub.Create`: requires `smartContractsCount < u32::MAX` instead of modelling the trap of the unchecked `+= 1` at `lib.rs:113`.
- `RatingHub.AZSmartContractHub.Rate`: requires `RateFits` instead of modelling the trap of the unchecked `u16` `+= 1` at `lib.rs:150` and `lib.rs:161`. Its decrement half holds in every valid state (`RatingHub.ValidRateNeverUnderflows`), so in practice only the increment half restricts callers.
- The class methods do not repeat the storage invariant in their own contracts. Each one is tied to its step function, and the `…KeepsValid` lemmas prove that step preserves the invariant. `Groups.Serve` shows the two composing over the Groups class for any sequence of calls.
- `HubErrors.FromGroupsError`: wraps the Groups contract's own seven-variant error, as read by `Boundary.DecodeGroupsError`, not the Hub's five-variant copy at `errors.rs:34-40` that the code decodes into. So the model's Hub can return `AZGroupsError(GroupDisabled)` and `AZGroupsError(NotAMember)`, which the code as written never returns (see "## Findings").
- `Hub.ValidateMembership`: the `Hub.Membership` parameter answers with the Groups contract's own error type, so it models the corrected reading of `az_smart_contract_hub/lib.rs:319`. As written, a missing group reaches the Hub as `UnprocessableEntity`, a non-member as `Unauthorised`, and a disabled group traps the call (`Boundary.MirrorMisreadsMembershipErrors`).
- `Hub.CreateGatedByGroups`: its precondition feeds the Hub the Groups contract's answer undistorted, which is the corrected reading. For the code as written, its disabled-group clause does not hold, because that call traps.
- Gas, revert semantics and reentrancy are not modelled. Every handler checks before it writes, so a failure changing nothing is stated directly on each step function.

## Findings

| source | as written | input that shows it | evidently intended | confidence | as-written member | corrected member |
|---|---|---|---|---|---|---|
| errors.rs:34-40 | The Hub decodes the Groups contract's error with its own five-variant `AZGroupsError` (ContractCall, InkEnvError, NotFound, Unauthorised, UnprocessableEntity). The real enum has seven variants in a different order (`az_groups/errors.rs:8-16`), and SCALE matches variants by declaration index. | `validate_membership` on a missing group returns NotFound("Group"), index 4; the Hub reads it as UnprocessableEntity("Group"). NotAMember (index 3) arrives as Unauthorised. GroupDisabled (index 1, no field) fails to decode, so the Hub's call traps. | The Hub receives the Groups error unchanged and wraps it in `AZGroupsError(e)`. | not executed | `Boundary.MirrorMisreadsMembershipErrors` | `Boundary.DecodeEncodeRoundTrip` |
