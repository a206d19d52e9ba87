# ICP Talent Pool: a verified model of its canisters and page logic

ICP Talent Pool lets talents issue their own ICRC-1/ICRC-2 token on the
Internet Computer. This project models three parts of it in Dafny and proves
properties of the model.

- **Token-factory canister.** Its state is a `State` record with three stable
  maps and three fields, plus the WASM module installed into new token ledgers.
  - Faucet requests: send, accept and reject.
  - Admin handling: first-come registration, change of admin, and the
    admin-only replacement of the WASM module.
  - Token creation: one token per creator, paid with a 100-token charge. The
    factory then creates and installs a ledger canister and records the token
    and the creator's binding.
  - Queries over the state.
- **Profile canister.** A map from principal to profile, with insert-if-absent
  (`create_user`), replace-if-present (`update_user`) and three queries.
- **Web pages.** The list and string logic of the admin, profile and explore
  pages.

Code that changes state in place is modelled with classes whose methods
`modify` their fields:
- the factory's `State` and WASM cell;
- the profile canister's user map;
- the pages' component state.

Each such method is proved equal to a step function on a value snapshot. The
properties are stated about those step functions, and then about whole runs of
update calls (`FactoryInvariants`). Queries and pure page helpers are
functions.

Calls to other canisters enter the model as parameters holding their outcome:
- the ledger's `icrc2_transfer_from`;
- the management canister's `create_canister` and `install_code`.

The same goes for the system's own inputs: the caller, the canister's own id
and the time. Each step also returns the calls it issues, in order, so
properties can speak about who is debited and for how much.

Integer fields keep the Rust widths. `+=` on `u32` and `u64` is modelled as a
release build runs it, wrapping around (`IcTypes.AddU32`, `IcTypes.AddU64`).
Stable-map iteration follows the key order that candid derives for principals:
length first, then bytes (`StableMap`).

The "Not authorized" reply of `get_faucet_requests` names the caller by its
textual form. The code that makes that text (`to_text` of the principal type)
is not part of the repository, and the model writes it out (`PrincipalText`).
The text is the CRC-32 checksum of the bytes, big-endian, followed by the
bytes. That is encoded in base 32 (section 6 of RFC 4648, lower case, no
padding) and cut into dashed groups of five.

The factory's code does not compile as written, and the model follows the
evident intent:
- `src/icTalent_backend/src/ic_talent_token_factory_canister/src/token_pool.rs:57` calls `transfer_tokens` with two arguments, but it
  takes three (`to`, `amount`, `from`). The comment on the line before says
  the charge goes to the factory canister, but the first argument the code
  passes, `to`, is the admin. The model follows the code: the creator (`from`)
  pays 100 tokens to the admin (`to`).
- The `InitArgs` and `ArchiveOptions` records in `src/icTalent_backend/src/ic_talent_token_factory_canister/src/types.rs:46-64` lack
  fields that `src/icTalent_backend/src/ic_talent_token_factory_canister/src/token_pool.rs:95-136` sets. The model's records carry the
  fields as `token_pool.rs` sets them.
- `src/icTalent_backend/src/ic_talent_token_factory_canister/src/token_pool.rs:59` formats an `Error` with `{}`. `Error` implements no
  `Display` and derives no `Debug`, so the line does not compile. The model
  renders it with `FactoryTypes.ErrorText`, a rendering the model chooses:
  the variant's name, with a transfer failure's message in parentheses.
- `transfer_tokens` is private to `api_update.rs` but is imported by
  `token_pool.rs`. The model treats it as reachable.

## Model

| member | source | states |
|---|---|---|
| IcTypes.AddU32 | src/icTalent_backend/src/ic_talent_token_factory_canister/src/api_update.rs:104 | the sum of two `u32` counters, wrapping at 2^32 exactly when the true sum does not fit |
| IcTypes.AddU64 | src/icTalent_backend/src/ic_talent_token_factory_canister/src/api_update.rs:105 | the sum of two `u64` totals, wrapping at 2^64 exactly when the true sum does not fit |
| IcTypes.DecimalString | src/icTalent_backend/src/ic_talent_token_factory_canister/src/api_update.rs:35 | the number as a non-empty run of decimal digits with no leading zero |
| IcTypes.DecimalRoundTrip | src/icTalent_backend/src/ic_talent_token_factory_canister/src/api_update.rs:35 | the digits in the faucet reply read back as the requested amount |
| StableMap.BelowIrreflexive | src/icTalent_backend/src/ic_talent_token_factory_canister/src/state_handler.rs:11-13 | the key order of the principal-keyed stable maps is irreflexive |
| StableMap.BelowTransitive | src/icTalent_backend/src/ic_talent_token_factory_canister/src/state_handler.rs:11-13 | the key order is transitive |
| StableMap.BelowTotal | src/icTalent_backend/src/ic_talent_token_factory_canister/src/state_handler.rs:11-13 | any two distinct principals are ordered one way |
| StableMap.BelowAsymmetric | src/icTalent_backend/src/ic_talent_token_factory_canister/src/state_handler.rs:11-13 | no two principals are each below the other |
| StableMap.SortedKeys | src/icTalent_backend/src/ic_talent_token_factory_canister/src/api_query.rs:20 | the keys of a map, each exactly once, strictly ascending |
| StableMap.SortedListingUnique | src/icTalent_backend/src/ic_talent_token_factory_canister/src/api_query.rs:20 | two strictly ascending listings of the same keys are equal, so the iteration order is fixed by the keys |
| StableMap.Entries | src/icTalent_backend/src/ic_talent_token_factory_canister/src/api_query.rs:20 | every (key, value) pair of the map once, with the stored value, in ascending key order |
| StableMap.Values | src/icTalent_backend/src/ic_talent_backend_canister/src/api_query.rs:34 | as many values as keys, each a stored value, every stored value present, in ascending key order |
| FactoryTypes.ErrorText | src/icTalent_backend/src/ic_talent_token_factory_canister/src/token_pool.rs:59 | a non-empty rendering of an `Error`; a transfer failure carries its message |
| FactoryState.State.constructor | src/icTalent_backend/src/ic_talent_token_factory_canister/src/state_handler.rs:30-39 | the default state: admin is the canister itself, ledger id anonymous, not registered, three empty maps |
| FactoryState.State.Init | src/icTalent_backend/src/ic_talent_token_factory_canister/src/state_handler.rs:53-64 | after `init`: admin is the management canister (`aaaaa-aa`), the ledger id is the argument, registration cleared, maps empty |
| FactoryState.WasmCell.constructor | src/icTalent_backend/src/ic_talent_token_factory_canister/src/state_handler.rs:28 | the WASM module starts empty |
| FactoryUpdate.RequestStep | src/icTalent_backend/src/ic_talent_token_factory_canister/src/api_update.rs:11-36 | anonymous callers are refused with no change; otherwise a first request records (n, 1, 0), a repeat sets n, counts one more and keeps the total given; no other key or field changes |
| FactoryUpdate.SendTokenFaucetRequest | src/icTalent_backend/src/ic_talent_token_factory_canister/src/api_update.rs:11-36 | the in-place update leaves exactly the state and reply of `RequestStep`; anonymous callers change nothing |
| FactoryUpdate.RegisterAdminStep | src/icTalent_backend/src/ic_talent_token_factory_canister/src/api_update.rs:40-55 | fails when an admin is registered, with no change; otherwise the caller becomes admin and the flag is set |
| FactoryUpdate.RegisterAdmin | src/icTalent_backend/src/ic_talent_token_factory_canister/src/api_update.rs:40-55 | the in-place update agrees with `RegisterAdminStep` |
| FactoryUpdate.ChangeAdminStep | src/icTalent_backend/src/ic_talent_token_factory_canister/src/api_update.rs:58-82 | "Admin not registered" first, then "Not authorized" for a non-admin caller, neither changing state; on success only the admin changes, to the new one |
| FactoryUpdate.ChangeAdmin | src/icTalent_backend/src/ic_talent_token_factory_canister/src/api_update.rs:58-82 | the in-place update agrees with `ChangeAdminStep` |
| FactoryUpdate.TransferTokens | src/icTalent_backend/src/ic_talent_token_factory_canister/src/api_update.rs:140-165 | one `icrc2_transfer_from` on the token ledger from `from`'s default account to `to`'s, of exactly `amount`; succeeds iff the ledger transferred, otherwise `TransferFailed` |
| FactoryUpdate.AcceptStep | src/icTalent_backend/src/ic_talent_token_factory_canister/src/api_update.rs:85-114 | authorization is checked before existence and neither failure changes state or calls out; on success the record keeps its amount, counts one more request, adds the amount to what was given, no other record changes, exactly one transfer of that amount is issued, and the reply is Ok iff it succeeded |
| FactoryUpdate.AcceptTokenRequest | src/icTalent_backend/src/ic_talent_token_factory_canister/src/api_update.rs:85-114 | the in-place update, reply and issued call agree with `AcceptStep`; a non-admin changes nothing |
| FactoryUpdate.RejectStep | src/icTalent_backend/src/ic_talent_token_factory_canister/src/api_update.rs:117-137 | the same two guards, without change; on success exactly the user's record is removed and the rest stay as they were |
| FactoryUpdate.RejectTokenRequest | src/icTalent_backend/src/ic_talent_token_factory_canister/src/api_update.rs:117-137 | the in-place update agrees with `RejectStep`; failures change nothing |
| FactoryUpdate.SecondRegistrationFails | src/icTalent_backend/src/ic_talent_token_factory_canister/src/api_update.rs:45-51 | after any registration attempt, the next one fails |
| FactoryUpdate.AcceptTwiceGrantsTwice | src/icTalent_backend/src/ic_talent_token_factory_canister/src/api_update.rs:101-111 | accepting the same request twice adds its amount twice and issues two transfers of that amount |
| FactoryUpdate.AcceptUpdatePersistsOnFailedTransfer | src/icTalent_backend/src/ic_talent_token_factory_canister/src/api_update.rs:101-111 | when the transfer fails the reply is the transfer error, yet the record's request count has gone up |
| TokenPool.UpdateWasmStep | src/icTalent_backend/src/ic_talent_token_factory_canister/src/token_pool.rs:19-36 | a non-admin is refused and the module is unchanged; the admin's call replaces it with exactly the given bytes |
| TokenPool.UpdateWasmModule | src/icTalent_backend/src/ic_talent_token_factory_canister/src/token_pool.rs:19-36 | the in-place update agrees with `UpdateWasmStep`; a non-admin leaves the module unchanged |
| TokenPool.BuildInitArgs | src/icTalent_backend/src/ic_talent_token_factory_canister/src/token_pool.rs:95-136 | the whole supply is credited to the factory's single account, which also mints; fee 0; name, symbol and decimals in the metadata; ICRC-2 on; archive controlled by the factory with the creator as extra controller |
| TokenPool.RecordFor | src/icTalent_backend/src/ic_talent_token_factory_canister/src/token_pool.rs:155-163 | the stored metadata copies name, symbol, decimals, supply and logo, with the creator as owner and the given time |
| TokenPool.CreateTokenStep | src/icTalent_backend/src/ic_talent_token_factory_canister/src/token_pool.rs:40-174 | a creator with a token is refused before any call; otherwise the first call charges 100 from the creator to the admin; every failure leaves state unchanged, an empty module failing only after the charge; success iff charge, creation and install all succeed, and then exactly the new token record and the creator's binding are added and the id returned |
| TokenPool.CreateTalentTokenCanister | src/icTalent_backend/src/ic_talent_token_factory_canister/src/token_pool.rs:40-174 | the in-place update, reply and issued calls agree with `CreateTokenStep`; failures change nothing |
| TokenPool.SecondCreationRefused | src/icTalent_backend/src/ic_talent_token_factory_canister/src/token_pool.rs:44-50 | after a successful creation, the same creator's next creation is refused with no calls and no change |
| PrincipalText.ToText | src/icTalent_backend/src/ic_talent_token_factory_canister/src/api_query.rs:17 | a principal of n bytes reads as (8 (n + 4) + 4) / 5 base-32 characters with a dash after every fifth |
| PrincipalText.ToTextCharacters | src/icTalent_backend/src/ic_talent_token_factory_canister/src/api_query.rs:17 | every sixth character of a principal's text is a dash and every other one a lower-case base-32 digit |
| PrincipalText.Base32 | src/icTalent_backend/src/ic_talent_token_factory_canister/src/api_query.rs:17 | RFC 4648 base 32 without padding: (8 k + 4) / 5 digits for k bytes, all from the lower-case alphabet |
| PrincipalText.Base32Append | src/icTalent_backend/src/ic_talent_token_factory_canister/src/api_query.rs:17 | the encoding works block by block: after a whole number of five-byte blocks, the encodings of the two parts are put together |
| PrincipalText.BlockDigitsValue | src/icTalent_backend/src/ic_talent_token_factory_canister/src/api_query.rs:17 | the eight digits of a five-byte block spell its 40-bit value, most significant digit first |
| PrincipalText.LowDigitsValue | src/icTalent_backend/src/ic_talent_token_factory_canister/src/api_query.rs:17 | the n digits taken from a number spell that number modulo 32^n |
| PrincipalText.DigitRoundTrip | src/icTalent_backend/src/ic_talent_token_factory_canister/src/api_query.rs:17 | reading back the character of a digit gives the digit |
| PrincipalText.DigitCharIsAlphabet | src/icTalent_backend/src/ic_talent_token_factory_canister/src/api_query.rs:17 | the digit characters are the RFC 4648 base-32 alphabet, in lower case |
| PrincipalText.DashedCharAt | src/icTalent_backend/src/ic_talent_token_factory_canister/src/api_query.rs:17 | in the dashed form, every sixth character is a dash and the others are the digits in order |
| PrincipalText.Rfc4648Vectors | src/icTalent_backend/src/ic_talent_token_factory_canister/src/api_query.rs:17 | the encoding gives the base-32 test vectors of RFC 4648, section 10, for "f" to "foobar" |
| PrincipalText.AllOnesDigits | src/icTalent_backend/src/ic_talent_token_factory_canister/src/api_query.rs:17 | a final one-byte block keeps its low bits: 0xFF encodes as "74" |
| PrincipalText.AnonymousText | src/icTalent_backend/src/ic_talent_token_factory_canister/src/api_query.rs:17 | the anonymous principal (the byte 0x04) reads "2vxsx-fae" |
| PrincipalText.CanisterIdText | src/icTalent_backend/src/ic_talent_token_factory_canister/src/api_query.rs:17 | the canister id 00 00 00 00 00 00 00 01 01 01 reads "rrkah-fqaaa-aaaaa-aaaaq-cai" |
| PrincipalText.ManagementCanisterText | src/icTalent_backend/src/ic_talent_token_factory_canister/src/state_handler.rs:57 | the textual form of the empty principal is "aaaaa-aa", so `init`'s admin is the management canister |
| FactoryQuery.GetTokenMetadata | src/icTalent_backend/src/ic_talent_token_factory_canister/src/api_query.rs:5-12 | Ok with the stored metadata iff the id is known, otherwise "Token not found" |
| FactoryQuery.GetFaucetRequests | src/icTalent_backend/src/ic_talent_token_factory_canister/src/api_query.rs:13-23 | a non-admin gets "Not authorized, caller: " and its principal's text; the admin gets every (requester, record) pair once, in ascending key order |
| FactoryQuery.GetListOfTokens | src/icTalent_backend/src/ic_talent_token_factory_canister/src/api_query.rs:25-31 | always Ok, with every (token id, metadata) pair once, unfiltered |
| FactoryQuery.GetAdmin | src/icTalent_backend/src/ic_talent_token_factory_canister/src/api_query.rs:33-38 | always Ok with the current admin; it takes no caller and checks none |
| FactoryInvariants.Step | src/icTalent_backend/src/ic_talent_token_factory_canister/src/token_pool.rs:165-171 | only token creation touches the token records and the creator bindings, and only the WASM update touches the module |
| FactoryInvariants.RegistrationPermanent | src/icTalent_backend/src/ic_talent_token_factory_canister/src/api_update.rs:45-51 | once an admin is registered, no sequence of update calls clears the flag, and a later registration fails |
| FactoryInvariants.BindingPermanent | src/icTalent_backend/src/ic_talent_token_factory_canister/src/token_pool.rs:44-50 | a creator's binding to its token canister survives every later sequence of update calls unchanged |
| FactoryInvariants.StepKeepsConsistent | src/icTalent_backend/src/ic_talent_token_factory_canister/src/token_pool.rs:165-171 | each update call keeps every bound creator the owner of the token its binding names, given a fresh canister id |
| FactoryInvariants.ConsistentAfterRun | src/icTalent_backend/src/ic_talent_token_factory_canister/src/token_pool.rs:165-171 | that consistency holds after any sequence of update calls from a consistent state, such as `init`'s |
| FactoryInvariants.BindingsInjective | src/icTalent_backend/src/ic_talent_token_factory_canister/src/token_pool.rs:165-171 | in a consistent state no two creators are bound to the same token canister |
| FactoryInvariants.TransfersDebitTheCaller | src/icTalent_backend/src/ic_talent_token_factory_canister/src/api_update.rs:143-149 | every ledger transfer an update method issues debits the caller's own account |
| FactoryInvariants.AsWrittenStep | src/icTalent_backend/src/ic_talent_token_factory_canister/src/api_update.rs:139-140 | with `transfer_tokens` exported, a call of it issues one transfer and leaves the state as it was; other calls act as `Step` |
| FactoryInvariants.AnyoneCanSpendTheAdminsAllowance | src/icTalent_backend/src/ic_talent_token_factory_canister/src/api_update.rs:139-154 | through the exported `transfer_tokens`, a caller other than the admin has a transfer issued from the admin's account to its own |
| ProfileStore.Owned | src/icTalent_backend/src/ic_talent_backend_canister/src/api_update.rs:13-20 | the stored profile carries the caller's id and every other field as submitted |
| ProfileStore.CreateUserStep | src/icTalent_backend/src/ic_talent_backend_canister/src/api_update.rs:6-25 | "User already exists" with no change when the caller has a profile; otherwise exactly the caller's key is added, with id = caller, and other profiles are unchanged |
| ProfileStore.UserStore.CreateUser | src/icTalent_backend/src/ic_talent_backend_canister/src/api_update.rs:6-25 | the in-place insert agrees with `CreateUserStep` |
| ProfileStore.UpdateUserStep | src/icTalent_backend/src/ic_talent_backend_canister/src/api_update.rs:29-48 | "User does not exist" with no change when the caller has none; otherwise the whole profile is replaced, with id = caller, and the keys are unchanged |
| ProfileStore.UserStore.UpdateUser | src/icTalent_backend/src/ic_talent_backend_canister/src/api_update.rs:29-48 | the in-place replace agrees with `UpdateUserStep` |
| ProfileStore.UserStore.constructor | src/icTalent_backend/src/ic_talent_backend_canister/src/state_handler.rs:25-30 | the user map starts empty |
| ProfileStore.ProfilesPersist | src/icTalent_backend/src/ic_talent_backend_canister/src/api_update.rs:10-21 | neither update method changes or removes another principal's profile |
| ProfileQuery.GetUser | src/icTalent_backend/src/ic_talent_backend_canister/src/api_query.rs:6-17 | Ok with the caller's profile iff it has one, otherwise "User not found" |
| ProfileQuery.GetUserById | src/icTalent_backend/src/ic_talent_backend_canister/src/api_query.rs:19-29 | Ok with the profile stored under the id iff there is one, otherwise "User not found" |
| ProfileQuery.GetUserList | src/icTalent_backend/src/ic_talent_backend_canister/src/api_query.rs:31-36 | always Ok; one profile per key, every stored profile present, in ascending key order |
| ProfileQuery.WritesKeepIdsMatchingKeys | src/icTalent_backend/src/ic_talent_backend_canister/src/api_update.rs:13-42 | both update methods keep every stored profile's id equal to its key |
| ProfileQuery.CreateThenGetUser | src/icTalent_backend/src/ic_talent_backend_canister/src/api_query.rs:6-17 | after P creates a profile, `get_user` as P returns it with id P, and after P's update returns the update |
| JsStrings.TrimStart | src/icTalent_frontend/src/pages/Profile.jsx:93 | the longest suffix not starting with white space; everything dropped is white space |
| JsStrings.TrimEnd | src/icTalent_frontend/src/pages/Profile.jsx:93 | the longest prefix not ending with white space; everything dropped is white space |
| JsStrings.Trim | src/icTalent_frontend/src/pages/Profile.jsx:93 | a contiguous slice of the text with only white space cut off before and after it; neither of its ends is white space, and it is empty iff the text is all white space |
| JsStrings.TrimmedSlice | src/icTalent_frontend/src/pages/Profile.jsx:93 | cutting white space off the front and then off the back leaves such a slice |
| JsStrings.TrimIdempotent | src/icTalent_frontend/src/pages/Profile.jsx:96 | trimming an already trimmed text changes nothing |
| JsStrings.LowerChar | src/icTalent_frontend/src/pages/Explore.jsx:79 | upper-case ASCII letters map to lower case, every other character is kept, and no upper-case letter remains |
| JsStrings.ToLower | src/icTalent_frontend/src/pages/Explore.jsx:79 | same length, each character lower-cased |
| JsStrings.ToLowerIdempotent | src/icTalent_frontend/src/pages/Explore.jsx:79 | lower-casing twice is lower-casing once |
| JsStrings.Includes | src/icTalent_frontend/src/pages/Explore.jsx:79 | true iff the text occurs at some position |
| JsStrings.IncludesEmpty | src/icTalent_frontend/src/pages/Explore.jsx:79 | every text includes the empty text |
| JsStrings.Split | src/icTalent_frontend/src/pages/Profile.jsx:168 | at least one piece, and no piece contains a space |
| JsStrings.SplitJoin | src/icTalent_frontend/src/pages/Profile.jsx:168 | joining the pieces with spaces gives the text back |
| AdminPage.WithStatus | src/icTalent_frontend/src/pages/Admin.jsx:52-56 | same length and order; every entry with the id gets the status; ids, amounts and all other entries unchanged |
| AdminPage.LastStatusWins | src/icTalent_frontend/src/pages/Admin.jsx:52-77 | rewriting an id twice is the same as rewriting it with the last status |
| AdminPage.RewritesCommute | src/icTalent_frontend/src/pages/Admin.jsx:52-77 | rewrites of different ids can be applied in either order |
| AdminPage.Render | src/icTalent_frontend/src/pages/Admin.jsx:91-167 | the table is shown iff authenticated, one row per request in order, with actions offered iff the status is "pending" |
| AdminPage.SettledRequestsOfferNothing | src/icTalent_frontend/src/pages/Admin.jsx:147 | after approving or rejecting an id, no row with that id offers actions |
| AdminPage.Page.constructor | src/icTalent_frontend/src/pages/Admin.jsx:14-29 | not authenticated, with the initial request list |
| AdminPage.Page.HandleLogin | src/icTalent_frontend/src/pages/Admin.jsx:31-47 | authenticated afterwards, requests unchanged |
| AdminPage.Page.Logout | src/icTalent_frontend/src/pages/Admin.jsx:109-114 | not authenticated afterwards, requests unchanged |
| AdminPage.Page.HandleApprove | src/icTalent_frontend/src/pages/Admin.jsx:49-68 | the list becomes `WithStatus(..., "approved")` of the old one, with no status check |
| AdminPage.Page.HandleReject | src/icTalent_frontend/src/pages/Admin.jsx:70-89 | the list becomes `WithStatus(..., "rejected")` of the old one, with no status check |
| ProfilePage.AddAchievement | src/icTalent_frontend/src/pages/Profile.jsx:92-97 | appends the trimmed text iff it is non-empty, otherwise the list is unchanged; an added entry never starts with white space |
| ProfilePage.RemoveAt | src/icTalent_frontend/src/pages/Profile.jsx:106 | an in-range index removes exactly that entry, keeping the rest in order; any other index changes nothing |
| ProfilePage.KeepOthersDropsOne | src/icTalent_frontend/src/pages/Profile.jsx:106 | when the index names an entry, the index filter over a list starting at any offset drops exactly that entry and keeps the rest in order |
| ProfilePage.KeepOthersKeepsAll | src/icTalent_frontend/src/pages/Profile.jsx:106 | when the index names no entry, the index filter keeps the whole list |
| ProfilePage.Initials | src/icTalent_frontend/src/pages/Profile.jsx:167-170 | equals the one-pass scan `ScanInitials`: each word's first character, in order |
| ProfilePage.ScanInitials | src/icTalent_frontend/src/pages/Profile.jsx:167-170 | no longer than the name and free of spaces |
| ProfilePage.FirstsOfSplit | src/icTalent_frontend/src/pages/Profile.jsx:167-170 | first characters of the split pieces equal the scan, at and after a word start |
| ProfilePage.AsNat8 | src/icTalent_frontend/src/pages/Profile.jsx:87 | a value accepted as a stat is the number it came from |
| ProfilePage.EncodeStats | src/icTalent_frontend/src/pages/Profile.jsx:87 | a sendable stats record holds the numbers under the three snake-case keys |
| ProfilePage.StatEditIsLost | src/icTalent_frontend/src/pages/Profile.jsx:259-265 | as written, a stat edit changes no displayed stat and not the record sent on save |
| ProfilePage.StatEditIsLostExample | src/icTalent_frontend/src/pages/Profile.jsx:259-265 | experience 0 edited to 5 still reads 0 |
| ProfilePage.EditStat | src/icTalent_frontend/src/pages/Profile.jsx:259-265 | the edited stat reads the new value and the other two are unchanged |
| ProfilePage.StatEditIsSaved | src/icTalent_frontend/src/pages/Profile.jsx:259-265 | with the intended edit, the record sent on save carries the new value |
| ProfilePage.Submission | src/icTalent_frontend/src/pages/Profile.jsx:79-90 | sendable iff the stats encode; then it carries the form's name, skill, description, achievements and stats |
| ProfilePage.SavesAfterTheFirstAreLost | src/icTalent_frontend/src/pages/Profile.jsx:79-90 | as written, once the caller has a profile a save changes nothing and the canister answers "User already exists" |
| ProfilePage.SaveProfile | src/icTalent_frontend/src/pages/Profile.jsx:111-114 | after the intended save, `get_user` returns the submitted profile with the caller's id; other profiles unchanged |
| ProfilePage.CopyToken | src/icTalent_frontend/src/pages/Profile.jsx:118-123 | the created token copies the form's name, symbol, total supply and market cap, `undefined` where missing |
| ProfilePage.TokenFormQuirks | src/icTalent_frontend/src/pages/Profile.jsx:116-134 | a token created from the initial form has no market cap; the cleared form has no token price |
| ProfilePage.Page.constructor | src/icTalent_frontend/src/pages/Profile.jsx:17-42 | the empty profile form, stats 0, empty input, nothing modified, the initial token form |
| ProfilePage.Page.HandleAddAchievement | src/icTalent_frontend/src/pages/Profile.jsx:92-101 | the list becomes `AddAchievement` of the old list and input; on an add the input is cleared and the modified flag set, otherwise nothing changes |
| ProfilePage.Page.HandleRemoveAchievement | src/icTalent_frontend/src/pages/Profile.jsx:103-109 | the list becomes `RemoveAt` of the old one and the modified flag is set |
| ProfilePage.Page.StartEditing | src/icTalent_frontend/src/pages/Profile.jsx:314-315 | the "Edit Profile" button sets the editing flag and changes nothing else |
| ProfilePage.Page.HandleStatChange | src/icTalent_frontend/src/pages/Profile.jsx:257-270 | only while editing (the inputs are disabled otherwise); the stats become the intended `EditStat` of the old ones, not the as-written edit of the second finding; nothing else changes |
| ProfilePage.Page.HandleSaveProfile | src/icTalent_frontend/src/pages/Profile.jsx:111-114 | run by the "Save Profile" button while editing; the canister's map becomes the intended `SaveProfile` of the old one, not the as-written `create_user`-only save of the third finding, and editing ends; the form is unchanged |
| ProfilePage.Page.HandleCreateToken | src/icTalent_frontend/src/pages/Profile.jsx:116-135 | the created token is `CopyToken` of the old form and the form is replaced by the cleared one |
| ExplorePage.FilterTalents | src/icTalent_frontend/src/pages/Explore.jsx:78-80 | keeps exactly the talents whose lower-cased name includes the lower-cased query, each as many times as it is listed, as an order-preserving subsequence |
| ExplorePage.SubsequenceOfTail | src/icTalent_frontend/src/pages/Explore.jsx:78-80 | a subsequence of a list's tail is a subsequence of the list |
| ExplorePage.DropFirst | src/icTalent_frontend/src/pages/Explore.jsx:78-80 | dropping the first entry of a subsequence leaves a subsequence |
| ExplorePage.EmptyQueryKeepsAll | src/icTalent_frontend/src/pages/Explore.jsx:78-80 | an empty query shows every talent |
| ExplorePage.QueryCaseIgnored | src/icTalent_frontend/src/pages/Explore.jsx:78-80 | a query and its lower-cased form show the same talents |
| ExplorePage.Preview | src/icTalent_frontend/src/pages/Explore.jsx:170-172 | the first min(2, n) achievements, as a prefix; none when the list is absent |
| ExplorePage.FaucetDialog.constructor | src/icTalent_frontend/src/pages/Explore.jsx:69-70 | the dialog starts closed with an empty amount |
| ExplorePage.FaucetDialog.Open | src/icTalent_frontend/src/pages/Explore.jsx:106 | the dialog opens, the amount is kept |
| ExplorePage.FaucetDialog.SetTokenAmount | src/icTalent_frontend/src/pages/Explore.jsx:204 | the amount becomes the typed text |
| ExplorePage.FaucetDialog.HandleFaucetRequest | src/icTalent_frontend/src/pages/Explore.jsx:82-100 | the dialog closes and the amount is cleared; the notice names the old amount |

## Left out

- Candid encoding and the `Storable` implementations (`to_bytes`/`from_bytes`) are left out, and so is their round trip. The encoding is the candid library's, which is not part of this model.
- The ICRC-1/ICRC-2 ledger's own behaviour is left out: balances, allowances and fees. Each transfer is an outcome parameter (transferred or refused), and the rejection of the call is another outcome.
- The management canister's behaviour is left out, including the cycles payment. `create_canister` and `install_code` are outcome parameters.
- Interleaving at `await` points is left out. Each update call runs to completion before the next one starts. With interleaving, two creations by one creator could both pass the check at `token_pool.rs:44-50` before either records its binding.
- FactoryInvariants.ConsistentAfterRun: assumes the management canister hands out canister ids the factory has not recorded (`FreshCreations`), which it cannot check itself.
- IcTypes.AddU32: models release-build wrap-around. A debug build traps on overflow instead.
- IcTypes.AddU64: same as AddU32.
- `from_text` and a round trip with `to_text` are left out. `PrincipalText.ToText` models `to_text`, checked on given principals and on the RFC 4648 vectors. The only text the code parses is `init`'s literal `aaaaa-aa`, which `PrincipalText.ManagementCanisterText` covers.
- The profile page class is the page as intended. `ProfilePage.Page.HandleStatChange` uses `EditStat` and `ProfilePage.Page.HandleSaveProfile` uses `SaveProfile`. The as-written handlers are modelled as functions (`EditStatAsWritten`, `SaveProfileAsWritten`), and their faults are proved there (see Findings).
- The name, skill and description inputs (`Profile.jsx:174-252`) have no handlers in the model. They are disabled unless editing, like the stat inputs.
- The hex debug print of the install argument is left out (`token_pool.rs:140`).
- The profile canister's unused `token_data` map is left out, along with the map wiring in its `state_handler.rs`. Nothing in the modelled code reads or writes it.
- JsStrings.ToLower: lower-cases ASCII letters only. JavaScript's `toLowerCase` also maps letters outside ASCII.
- Strings are modelled as sequences of characters. JavaScript strings are UTF-16 code units, and the two differ on characters outside the Basic Multilingual Plane.
- `parseInt`/`parseFloat` are not modelled. The forms hold their results as exact numbers, and NaN and floating-point rounding are not represented.
- The profile page's fetch on mount (`Profile.jsx:44-73`) is left out. It is I/O.
- The profile page's login button is left out, as are the admin page's and explore page's toasts and the explore page's navigation. These are rendering and routing.
- ProfilePage.Page.HandleSaveProfile: waits for the canister call to finish. The page neither awaits nor uses the reply, and nothing else on the page depends on it.
- React's batching of state updates is left out. Each handler's updates are applied in order, at once.
- The mock data of the pages is left out (`Admin.jsx:18-29`, `Explore.jsx:20-64`). The model takes any list.
- Transactions.jsx, TalentProfile.jsx and the app shell are left out. They are ledger I/O, mock display, routing and theming.

## Findings

| source | as written | input that shows it | evidently intended | confidence | as-written member | corrected member |
|---|---|---|---|---|---|---|
| src/icTalent_backend/src/ic_talent_token_factory_canister/src/api_update.rs:139-140 | `transfer_tokens` carries `#[ic_cdk::update]`, so it is a public method. It debits whatever `from` its caller names and checks no caller. | A caller X that is not the admin calls `transfer_tokens(X, n, admin)`. The factory, spending on the admin's approval, issues `icrc2_transfer_from` from the admin's account to X. | An internal helper reached only through `accept_token_request` and `create_talent_token_canister`, so that every transfer debits the caller | high, not executed | FactoryInvariants.AnyoneCanSpendTheAdminsAllowance | FactoryInvariants.TransfersDebitTheCaller |
| src/icTalent_frontend/src/pages/Profile.jsx:259-265 | The stat inputs write `yearsExperience`, `projectsCompleted` and `clientSatisfaction`. The page displays and saves `years_experience`, `projects_completed` and `client_satisfaction`. | Stats all 0; type 5 into Experience. The input still shows 0, and a save sends 0. | The handlers write the snake-case fields they display | high, not executed | ProfilePage.StatEditIsLost | ProfilePage.EditStat |
| src/icTalent_frontend/src/pages/Profile.jsx:79-90 | `handleUserUpdate` always calls `create_user` | A user whose profile exists edits the name and saves. The canister answers "User already exists" and keeps the old profile. | `update_user` when a profile exists, `create_user` for the first save | high, not executed | ProfilePage.SavesAfterTheFirstAreLost | ProfilePage.SaveProfile |
