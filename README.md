# PatientX core, modelled in Dafny

PatientX is a health-data marketplace. Patients upload records, and each record's hash is anchored on an
Ethereum contract. Researchers ask for consent to use a record and pay for it. The patient grants
consent, and the grant is written to the chain. This project models:

- the chain adapter (`backend/blockchain.js`);
- the Express controllers for data, payments, authentication, profiles and researchers;
- the four React pages that hold the consent and marketplace state;
- the anonymisation step of the AI pipeline (`AI/model.py`).

Modules follow the source files:

| module | file | source |
|---|---|---|
| `Wrappers` | `wrappers.dfy` | `Option` and `Result` |
| `JsValues` | `js_values.dfy` | JavaScript values and truthiness; `parseInt`, `String()` and `toLowerCase`/`includes` on ASCII; how a parameter reaches SQL; Python's `zfill` |
| `Blockchain` | `blockchain.dfy` | `backend/blockchain.js` |
| `DataController` | `data_controller.dfy` | `backend/controller/data.controller.js` |
| `PaymentsController` | `payments_controller.dfy` | `backend/controller/payments.controller.js` |
| `AuthController` | `auth_controller.dfy` | `backend/controller/auth.controller.js` |
| `ProfileController` | `profile_controller.dfy` | `backend/controller/profile.controller.js` |
| `ResearcherController` | `researcher_controller.dfy` | `backend/controller/researcher.controller.js` |
| `ResearcherConsent` | `researcher_consent.dfy` | `src/assets/pages/Researcher_consent.jsx` |
| `ConsentPage` | `consent_page.dfy` | `src/assets/pages/Consent.jsx` |
| `ResearcherRecords` | `researcher_records.dfy` | `src/assets/pages/Researcher_records.jsx` |
| `RecordsPage` | `records_page.dfy` | `src/assets/pages/Records.jsx` |
| `Anonymise` | `anonymise.dfy` | `AI/model.py` lines 17-34 |

State that the source mutates is held in classes:

- the adapter's module-level `cachedAccounts`, `isContractVerified` and the contract's storage (`Blockchain.Adapter`);
- the database tables (`DataController.DataStore`, `AuthController.UserStore`, `ProfileController.ProfileStore`);
- each page's `useState` hooks (`ResearcherConsent.ResearcherConsentPage`, `ConsentPage.ConsentPage`,
  `ResearcherRecords.MarketplacePage`, `RecordsPage.RecordsPage`);
- the pandas frame (`Anonymise.DataFrame`).

Each handler is a method whose `ensures` ties the new state to a pure function of the old one, and the
properties are proved as lemmas about those functions.

Whatever the outside world answers is a parameter of the method that asks for it:

- the node (`getCode`, `listAccounts`), as `Blockchain.Node`;
- a transaction's outcome (`TxOutcome`) and a read of `hasConsent` (`ReadOutcome`);
- the clock (`now`);
- `sha256`/`keccak256`, HMAC and the Razorpay gateway, as functions;
- `Math.random()` draws, as reals in `[0, 1)`;
- a `fetch` reply, as `FetchOutcome` or `ActionOutcome`.

The contract's storage is abstract: a map from (hash, address) to consent, and a map from hash to owner.
The reply to an HTTP request is a status plus a body value; error texts appear where the source fixes
them.

## Model

| member | source | states |
|---|---|---|
| JsValues.Pred | backend/controller/data.controller.js:25 | `parseInt(x) - 1`: NaN stays NaN, and an integer decreases by exactly one |
| JsValues.NatToString | AI/model.py:20 | the decimal text of a number is non-empty, all digits, and has no leading zero unless it is "0" |
| JsValues.NatToStringValue | AI/model.py:20 | the decimal text reads back as the same number |
| JsValues.NatToStringInjective | AI/model.py:20 | different numbers have different decimal texts |
| JsValues.Zfill | AI/model.py:20 | `zfill(width)` pads on the left to `max(width, len)` characters and keeps the text as its suffix |
| JsValues.Zeros | AI/model.py:20 | the padding is exactly `k` zero characters |
| JsValues.ZerosValue | AI/model.py:20 | a run of zeros is a digit string of value 0 |
| JsValues.LeadingZerosValue | AI/model.py:20 | leading zeros do not change a digit string's value |
| JsValues.LeadingDigits | backend/controller/payments.controller.js:27 | decimal branch of `parseInt`: the longest run of digits, i.e. a prefix that is all digits and is followed by a non-digit or the end |
| JsValues.LeadingHexDigits | backend/controller/payments.controller.js:27 | hex branch of `parseInt` after "0x"/"0X": the longest run of hex digits, as a prefix followed by a non-hex character or the end |
| JsValues.HexDigitValue | backend/controller/payments.controller.js:27 | a hex digit's value is below 16 |
| JsValues.ParseIntHex | backend/controller/payments.controller.js:27 | `parseInt("0x" + h)` is the hexadecimal value of any non-empty hex-digit string `h` |
| JsValues.ParseIntHexExamples | backend/controller/payments.controller.js:27 | `parseInt("0x2")` is 2 and `parseInt("-0X1A")` is -26: the sign comes before the prefix |
| JsValues.ParseIntBarePrefix | backend/controller/payments.controller.js:27 | "0x" with no hex digit after it, as in "0x" and "0xg", is NaN |
| JsValues.ParseIntLeadingZero | backend/controller/payments.controller.js:27 | a leading zero not followed by x is decimal: "012" is 12 |
| JsValues.ParseIntText | backend/controller/payments.controller.js:27 | `parseInt(s)` (definition): skip leading white space, read an optional sign, use radix 16 after "0x"/"0X" and radix 10 otherwise, take the longest run of digits of that radix, and give NaN when it is empty |
| JsValues.IsSpace | backend/controller/payments.controller.js:27 | (definition) the white space and line terminators `parseInt` skips: tab, LF, VT, FF, CR, space, NBSP, BOM and the Unicode space separators |
| JsValues.HexPrefixed | backend/controller/payments.controller.js:27 | (definition) the text after the sign starts with "0x" or "0X" |
| JsValues.ParseInt | backend/controller/data.controller.js:25 | (definition) `parseInt(v)` reads `String(v)` |
| JsValues.Truthy | backend/controller/data.controller.js:120 | (definition) `!v` for each value: undefined, null, false, 0 and "" are falsy, and everything else is truthy |
| JsValues.ToText | backend/controller/data.controller.js:86-90 | (definition) `String(v)`, the text a parameter takes in a text column: "undefined", "null", "true"/"false", decimal digits, or the string itself |
| JsValues.IntToString | backend/controller/data.controller.js:42 | (definition) the decimal text of an integer, with "-" in front when it is negative |
| JsValues.SqlEquals | backend/controller/data.controller.js:127-130 | (definition) `column = $n`: an undefined or null parameter matches nothing; otherwise the column equals the parameter's text |
| JsValues.SqlText | backend/controller/data.controller.js:127-130 | (definition) the text node-postgres sends for a parameter: NULL for undefined and null, `String(v)` otherwise |
| JsValues.Includes | backend/blockchain.js:208-216 | (definition) `s.includes(sub)`: `sub` occurs in `s` at some position |
| JsValues.LeadingDigitsOfDigits | backend/controller/payments.controller.js:27 | on a digit string, that run is the whole string |
| JsValues.ParseIntRoundTrip | backend/controller/payments.controller.js:27 | `parseInt(String(n)) == n` for every integer, negative ones included |
| JsValues.ParseIntOfNumber | backend/controller/data.controller.js:25 | `parseInt` of a number value is that number |
| JsValues.ToLower | src/assets/pages/Researcher_records.jsx:50-51 | `toLowerCase` on ASCII letters: the length is kept and A–Z are lowered one character at a time, everything else unchanged |
| JsValues.LowerIsIdempotent | src/assets/pages/Researcher_records.jsx:50-51 | lowering twice is lowering once |
| JsValues.IncludesEmpty | src/assets/pages/Researcher_records.jsx:48-52 | every text includes the empty text, so an empty search filters nothing out |
| JsValues.DigitChar | AI/model.py:20 | a digit value maps to the digit character of that value |
| Blockchain.Normalise | backend/blockchain.js:37-46 | a text account is kept exactly when it is an address; an object with an `address` gives that address; nothing kept is empty |
| Blockchain.ValidAccounts | backend/blockchain.js:37-46 | the filtered listing is no longer than the listing, and none of its entries is empty |
| Blockchain.ValidAccountsAppend | backend/blockchain.js:37-46 | the map-and-filter distributes over concatenation, keeping order |
| Blockchain.ValidAccountsMembership | backend/blockchain.js:37-46 | an address is kept exactly when some listed account normalises to it |
| Blockchain.AccountsStep | backend/blockchain.js:33-59 | a successful call leaves its result in the cache (empty result corrected, see Findings) |
| Blockchain.AccountsStepAsWritten | backend/blockchain.js:33-59 | as written: once the cache is set, it is returned without asking the node |
| Blockchain.LoadedAccounts | backend/blockchain.js:33-59 | with the corrected step (see Findings), from an empty cache: success exactly when the normalised listing is non-empty; the result is that listing and is cached; a failure caches nothing |
| Blockchain.AccountsStepKeepsCacheOk | backend/blockchain.js:33-59 | with the corrected step (see Findings), the cache never holds an empty list, and a success is never empty |
| Blockchain.AccountsAreCached | backend/blockchain.js:34 | after one success, every later call returns the same accounts whatever the node says |
| Blockchain.EmptyListingStaysCachedAsWritten | backend/blockchain.js:37-50 | as written, a listing with no valid address caches `[]`, and every later call then returns `[]` without an error |
| Blockchain.EmptyListingIsRetried | backend/blockchain.js:48-50 | corrected: the failing call leaves the cache empty, so a later good listing is returned |
| Blockchain.CheckSignerIndex | backend/blockchain.js:65-72 | an index is accepted exactly when it is an integer in range; NaN or negative is "invalid signer index"; too large names the index and the count |
| Blockchain.SignerOf | backend/blockchain.js:61-76 | `getSigner` propagates the listing's error; otherwise it succeeds exactly for an index in range, with the account at that index |
| Blockchain.VerifiedContractSkipsCheck | backend/blockchain.js:78-88 | once verified, `getContract` no longer depends on `getCode`; unverified with code "0x" it fails as not deployed |
| Blockchain.ContractSignerIsCachedAccount | backend/blockchain.js:78-88 | the signer that `getContract` binds is the cached account at the requested index |
| Blockchain.FindOther | backend/blockchain.js:164 | a found account sits at an index other than the signer's |
| Blockchain.DefaultRequester | backend/blockchain.js:160-165 | the default requester is one of the accounts |
| Blockchain.DefaultRequesterClosedForm | backend/blockchain.js:160-165 | it is account 0 unless the signer is 0; then it is account 1, or account 0 when no other exists |
| Blockchain.DefaultRequesterIsAnotherAccount | backend/blockchain.js:160-165 | with two or more accounts, the default requester is never the signer's own account |
| Blockchain.Grantee | backend/blockchain.js:160-165 | a valid requested address is used as given; otherwise the default requester is |
| Blockchain.StoreOutcome | backend/blockchain.js:125-148 | storing succeeds exactly when the transaction is mined; the receipt names the signer as owner and storer; an "already exists"/"already stored" revert becomes `AlreadyExists` |
| Blockchain.ClassifyGrantError | backend/blockchain.js:205-217 | a revert whose reason has "Only owner can grant", or whose message has "not the data owner", becomes `OnlyOwnerCanGrant`. Otherwise a revert whose reason has "Not the data owner" becomes `NotDataOwner`. A provider failure whose message has "not the data owner" becomes `OnlyOwnerCanGrant`. Every other error passes through unchanged |
| Blockchain.IsAddress | backend/blockchain.js:38 | (definition) `ethers.isAddress`: 40 hex digits, with or without a lower-case "0x" prefix, or an ICAP address ("XE", two check digits, 30 or 31 base-36 characters) |
| Blockchain.AddressPrefixOptional | backend/blockchain.js:38 | 40 hex digits are an address with or without "0x" in front; an upper-case "0X" prefix is refused |
| Blockchain.Deployed | backend/blockchain.js:19-20 | (definition) `getCode` succeeded and yielded something other than "0x" |
| Blockchain.ContractSigner | backend/blockchain.js:61-92 | (definition) `getContract(index)`: fails with "not deployed" when the deployment check fails, and otherwise signs with `accounts[index]` of the loaded list, failing on a NaN, negative or too-large index |
| Blockchain.IsBytes32Text | backend/blockchain.js:278-280 | (definition) the text starts with "0x" and has 66 characters |
| Blockchain.Bytes32TextChars | backend/blockchain.js:279-281 | the hash format check accepts exactly 66 characters starting with "0x" |
| Blockchain.Describe | backend/blockchain.js:315-325 | the account info lists every account with its index, its address and whether it is an address, and its total is the count |
| Blockchain.Adapter.constructor | backend/blockchain.js:14-15 | startup: empty cache; verified exactly when the startup `getCode` found code; empty contract storage |
| Blockchain.Adapter.VerifyContractDeployment | backend/blockchain.js:17-31 | deployed exactly when `getCode` succeeded with something other than "0x"; the flag is set then and never cleared |
| Blockchain.Adapter.GetAccounts | backend/blockchain.js:33-59 | the new cache and the result are one corrected `AccountsStep` (see Findings) |
| Blockchain.Adapter.GetSigner | backend/blockchain.js:61-76 | loads the accounts, then returns `SignerOf` the loaded list |
| Blockchain.Adapter.GetContract | backend/blockchain.js:78-88 | the deployment check, then the signer; accounts are only loaded when the check passed |
| Blockchain.Adapter.StoreDataOnBlockchain | backend/blockchain.js:108-149 | with a signer, the outcome is `StoreOutcome` of `keccak(data)`, and a mined transaction records the signer as owner; without one, nothing is stored; consents never change |
| Blockchain.Adapter.GrantConsentOnBlockchain | backend/blockchain.js:152-218 | a mined grant sets consent for `(keccak(data), grantee)` and the receipt reports the grantee; a failure or revert changes no consent and is classified; owners never change |
| Blockchain.Adapter.CheckConsent | backend/blockchain.js:221-273 | the answer is the stored consent for `(keccak(data), grantee)` when the read succeeds; consent is never reported when the read failed; setup errors are reported as such |
| Blockchain.Adapter.StoreExistingHash | backend/blockchain.js:276-307 | a malformed hash is rejected before touching the chain; otherwise a mined transaction records the signer as owner of that hash |
| Blockchain.Adapter.GetAccountInfo | backend/blockchain.js:315-325 | `Describe` of the loaded accounts, or the loading error |
| DataController.GenerateHash | backend/controller/data.controller.js:11-13 | the hash is "0x" followed by the SHA-256 hex digest |
| DataController.GeneratedHashIsBytes32 | backend/controller/data.controller.js:11-13 | with a 64-digit digest, the hash passes the chain's 32-byte format check |
| DataController.GenerateHashInjective | backend/controller/data.controller.js:11-13 | two data values get equal hashes exactly when their digests are equal |
| DataController.MatchingRecord | backend/controller/data.controller.js:70-82 | `rows[0]` of the records SELECT: the first row that matches the owner (when given) and the hash, or none when no row matches |
| DataController.PendingRequest | backend/controller/data.controller.js:127-139 | the consent request found is a pending request with that id and owner, or no row is one |
| DataController.ApproveById | backend/controller/data.controller.js:174-178 | the UPDATE approves, with the time, exactly the rows with that id |
| DataController.ApproveOneRow | backend/controller/data.controller.js:127-178 | with unique ids, the UPDATE changes exactly the row the SELECT found |
| DataController.ApproveKeepsRowsOk | backend/controller/data.controller.js:174-178 | approving keeps ids unique and below the sequence, and keeps statuses consistent with `granted_at` |
| DataController.JoinRecords | backend/controller/data.controller.js:206-213 | every joined row carries its request |
| DataController.Join | backend/controller/data.controller.js:206-213 | every joined row is a request in the table that is owned by the caller and pending |
| DataController.JoinRecordsComplete | backend/controller/data.controller.js:206-213 | every record with the request's hash appears in the join |
| DataController.JoinComplete | backend/controller/data.controller.js:206-213 | every pending request of the owner that has a record with its hash appears in the join |
| DataController.InsertKeepsNewestFirst | backend/controller/data.controller.js:212 | inserting into a newest-first list keeps it newest-first |
| DataController.InsertAddsRow | backend/controller/data.controller.js:212 | the inserted list is a permutation of the list plus the new row |
| DataController.InsertNewestFirst | backend/controller/data.controller.js:212 | the inserted list is one row longer, and its head is the newer of the new row and the old head |
| DataController.SortNewestFirst | backend/controller/data.controller.js:212 | `ORDER BY requested_at DESC` yields a newest-first permutation of its input |
| DataController.PendingRequests | backend/controller/data.controller.js:206-213 | the pending list is the join, newest first, and holds only the owner's pending requests |
| DataController.DataStore.constructor | backend/controller/data.controller.js:32-35 | empty tables, with the consent id sequence at 1 |
| DataController.DataStore.StoreData | backend/controller/data.controller.js:16-48 | the reply is 400 without userId and data. The reply is 200 exactly when the chain stored `data` under account `parseInt(userId) - 1`; then the row is inserted with the hash and transaction hash. Otherwise no row is added |
| DataController.DataStore.RequestConsent | backend/controller/data.controller.js:51-111 | the reply is 400 for missing fields or a request to oneself, and 404 when there is no matching record. Otherwise a pending request with the next id is inserted; no request is added on any error |
| DataController.DataStore.GrantConsent | backend/controller/data.controller.js:114-197 | the reply is 400 or 404 on missing fields or no pending request, and the chain is untouched. For a found pending request the reply is 200 exactly when `GrantError` gives none, and otherwise it is that reply. On 200 the request is approved in place, and the chain holds consent for the record and the requester's account. A failed UPDATE after a mined grant is a 500 and leaves the chain ahead of the table (`ChainAheadOfTable`); a failure before it leaves the chain's consents untouched |
| DataController.DataStore.GrantPending | backend/controller/data.controller.js:139-190 | once the pending row is found, the reply is 200 exactly when `GrantError` gives no error reply, and otherwise it is that reply; a missing record leaves the chain untouched. A 200 reply means the row is approved in place and the chain holds consent for the record and the requester's account; any other reply leaves the rows alone. A failed UPDATE after a mined grant leaves the request pending and ungranted while the chain holds the consent |
| DataController.ChainAheadOfTable | backend/controller/data.controller.js:168-190 | (definition) the request is still found pending with no `granted_at`, so a retry finds it again, while the chain already holds the consent |
| DataController.DataStore.ApproveRequest | backend/controller/data.controller.js:174-178 | the UPDATE approves exactly the pending row the SELECT found, keeping the table's invariants |
| DataController.DataStore.GrantForRecord | backend/controller/data.controller.js:156-172 | the result is `Ok` exactly when `GrantFailure` finds no failure, and otherwise `Err` with that failure. A successful grant leaves consent on the chain for that record and requester; a failure leaves the chain's consents as they were |
| DataController.GrantFailure | backend/controller/data.controller.js:156-172 | no failure exactly when the accounts load, both `accounts[ownerId-1]` and `accounts[requester_id-1]` exist, the contract is deployed and the transaction is mined. A load error is a 500 cause of its own; an undefined account is `NoSuchAccount`; never a database failure |
| DataController.GrantError | backend/controller/data.controller.js:139-190 | no error reply exactly when the record is found, the grant succeeds and the UPDATE goes through. Otherwise the reply is 404 "Data not found" for a missing record, 500 with the grant failure, or 500 with the database error when only the UPDATE fails |
| DataController.DataStore.GetPendingRequests | backend/controller/data.controller.js:200-224 | replies 200 with `PendingRequests` and their count |
| DataController.DataStore.GetData | backend/controller/data.controller.js:227-275 | the reply is 400 without requesterId and 404 without a record; for a found record it is `DisclosureReply`: 200 with the data exactly when the chain reports consent for the requester's account, 403 "access denied" when the account exists but the check fails, 500 otherwise |
| DataController.DataStore.DiscloseRecord | backend/controller/data.controller.js:243-270 | the reply is `DisclosureReply` of the loaded accounts, the deployment check and the read; a 200 reply means the chain holds consent for the requester's account |
| DataController.DisclosureReply | backend/controller/data.controller.js:243-270 | a failed account lookup is a 500 with that error. 200 with the record's data exactly when the accounts load, the contract is deployed, the read succeeds and the requester's address holds consent. 403 "access denied" exactly when the requester's account exists but one of the last three fails. Every other case is a 500 |
| DataController.RequesterConsent | backend/controller/data.controller.js:246-252 | (definition) `accounts[requesterId-1]` exists and the chain holds consent for the address `checkConsent` resolves for it with signer 0 |
| DataController.NumberText | backend/controller/data.controller.js:42 | (definition) a number in a template literal: "NaN" or its decimal text |
| DataController.RecordMatches | backend/controller/data.controller.js:141-144 | (definition) `user_id=$1 AND data_hash=$2`, or `data_hash=$1` alone when no owner is given |
| DataController.IsPendingRequest | backend/controller/data.controller.js:127-130 | (definition) `id=$1 AND owner_id=$2 AND status='pending'` |
| PaymentsController.FirstPriced | backend/controller/payments.controller.js:18-25 | the row found has the hash; when none is found, no row has it |
| PaymentsController.PlanOrder | backend/controller/payments.controller.js:18-38 | no record, an amount `parseInt` refuses or that is not positive, or an order of `amount * 100` paise in INR with receipt `order_rcptid_<now>` |
| PaymentsController.CreateOrder | backend/controller/payments.controller.js:11-55 | 404 without a record; 400 for a bad amount. For a planned order the reply is 200 exactly when the gateway succeeds, and then carries the gateway's order for the planned options and the database amount; a gateway error is a 500 with that error |
| PaymentsController.RejectedAmountCreatesNoOrder | backend/controller/payments.controller.js:27-31 | a rejected lookup or amount never calls the gateway and replies 400 or 404 |
| PaymentsController.AmountIgnoresRequestFields | backend/controller/payments.controller.js:18-49 | the charged amount depends only on the database row and never on the request's other fields |
| PaymentsController.IntegerAmountInPaise | backend/controller/payments.controller.js:27-38 | a positive integer amount `n` becomes an INR order of `100 * n` |
| PaymentsController.FractionalAmountTruncated | backend/controller/payments.controller.js:27 | "12.50" is charged as 12 rupees (1200 paise) |
| PaymentsController.NullAmountRefused | backend/controller/payments.controller.js:27-31 | a NULL amount is refused as invalid |
| PaymentsController.VerifyPaymentAsWritten | backend/controller/payments.controller.js:57-85 | as written: a missing key is a 500, and with a key the reply is always 400 "Invalid signature!" |
| PaymentsController.ValidAmount | backend/controller/payments.controller.js:27-31 | (definition) `!dbAmount \|\| dbAmount <= 0` lets through only a positive integer |
| PaymentsController.SignatureMatches | backend/controller/payments.controller.js:68-75 | (definition) the signature equals the HMAC-SHA256 hex digest of `order_id + "\|" + payment_id` |
| PaymentsController.SignedText | backend/controller/payments.controller.js:68 | (definition) `razorpay_order_id + "\|" + razorpay_payment_id` on the texts of the two values |
| PaymentsController.ValidSignatureRefusedAsWritten | backend/controller/payments.controller.js:75-81 | as written, a correct signature still gets 400 "Invalid signature!" |
| PaymentsController.VerifyPayment | backend/controller/payments.controller.js:57-85 | corrected: 200 exactly when the HMAC-SHA256 of `order_id|payment_id` equals the signature, otherwise 400 "Invalid signature!"; a missing key is a 500 |
| AuthController.HashPassword | backend/controller/auth.controller.js:12 | the digest is made with cost 10 |
| AuthController.Compare | backend/controller/auth.controller.js:36 | (definition) `bcrypt.compare` accepts exactly the password the digest was made from |
| AuthController.CompareAcceptsOnlyThePassword | backend/controller/auth.controller.js:36-39 | a digest accepts its own password and no other, whatever the salt |
| AuthController.FindByMail | backend/controller/auth.controller.js:7-8 | the first user with that mail, or none has it (NULL matches nothing) |
| AuthController.SignupKeepsMailsUnique | backend/controller/auth.controller.js:7-21 | signing up a mail no one has keeps mails unique |
| AuthController.SigninFindsSignedUpUser | backend/controller/auth.controller.js:30-44 | after a signup, signing in with its mail finds the new user |
| AuthController.Session.constructor | backend/controller/auth.controller.js:17 | a new session is live and has no user until signup or signin sets one |
| AuthController.UserStore.constructor | backend/controller/auth.controller.js:12-21 | an empty users table, with the id sequence at 1 |
| AuthController.UserStore.Signup | backend/controller/auth.controller.js:3-25 | a known mail gets "User already exists" and nothing changes. Otherwise the user is inserted with a hashed password and the next id, and the session is logged in as that user |
| AuthController.UserStore.Signin | backend/controller/auth.controller.js:27-50 | an unknown mail gets "User does not exist"; a wrong password gets "Invalid password"; the right one logs the session in as that user |
| AuthController.Signout | backend/controller/auth.controller.js:52-59 | a failing `destroy` gets "Logout failed" and changes nothing; otherwise the session ends, the cookie is cleared and "Logged out successfully" is sent |
| ProfileController.Jsonify | backend/controller/profile.controller.js:29 | `JSON.stringify` of an array keeps every element except `undefined`, which becomes `null` |
| ProfileController.JsonList | backend/controller/profile.controller.js:29 | the serialised list has the same length, element by element |
| ProfileController.JsonListOfClean | backend/controller/profile.controller.js:17-29 | a list read back from JSONB serialises to itself |
| ProfileController.FirstRow | backend/controller/profile.controller.js:8-13 | `rows[0]` of the SELECT by `user_id`, or no row has that id |
| ProfileController.ResearchOf | backend/controller/profile.controller.js:15-19 | a missing row or a NULL column reads as `[]`; otherwise the stored list |
| ProfileController.SetResearch | backend/controller/profile.controller.js:25-30 | the UPDATE sets the column of exactly the rows with that id and changes nothing else |
| ProfileController.AppendThenRead | backend/controller/profile.controller.js:3-64 | after `addResearch`, `getResearch` yields the old list with the new study at its end |
| ProfileController.FirstRowOfUpdate | backend/controller/profile.controller.js:25-30 | the UPDATE does not change which row a user id finds |
| ProfileController.AppendWithoutRowStoresNothing | backend/controller/profile.controller.js:22-30 | for a user without a row, the UPDATE changes no row, although the reply still reports a list |
| ProfileController.ProfileStore.constructor | backend/controller/profile.controller.js:8-13 | the store holds the given rows |
| ProfileController.ProfileStore.AddResearch | backend/controller/profile.controller.js:3-42 | the rows are the UPDATE of the old list plus the study, the reply carries that list, and reading back gives it |
| ProfileController.ProfileStore.GetResearch | backend/controller/profile.controller.js:44-64 | replies with the user's stored list, or `[]` |
| ResearcherController.OrElse | backend/controller/researcher.controller.js:11-16 | `a \|\| b` on a text column: a non-empty value, else the fallback |
| ResearcherController.IsResearcher | backend/controller/researcher.controller.js:5 | (definition) `role = 'researcher' OR role = 'Researcher'`; a NULL role matches neither |
| ResearcherController.ToCard | backend/controller/researcher.controller.js:9-17 | a card has the user's id; the username or "Researcher"; the email, else the phone, else "No contact available"; and the fixed defaults |
| ResearcherController.Researchers | backend/controller/researcher.controller.js:5 | only users with role "researcher" or "Researcher", taken from the table |
| ResearcherController.GetResearchers | backend/controller/researcher.controller.js:3-25 | one card per researcher, in table order |
| ResearcherController.ResearchersExactly | backend/controller/researcher.controller.js:5 | a user is listed exactly when they are in the table with a researcher role |
| ResearcherController.ResearchersAppend | backend/controller/researcher.controller.js:5 | the query distributes over concatenation of the table, keeping order |
| ResearcherController.GetResearchersAppend | backend/controller/researcher.controller.js:5-17 | so does the mapping to cards |
| ResearcherController.ContactWithoutEmail | backend/controller/researcher.controller.js:16 | without an email the contact is the phone, else the default |
| ResearcherConsent.FieldOr | src/assets/pages/Researcher_consent.jsx:53-70 | a parse error, or reading a field of `null`, gives the unreadable fallback; a truthy field gives its value; otherwise the missing fallback |
| ResearcherConsent.RecordType | src/assets/pages/Researcher_consent.jsx:53-60 | (definition) the record's truthy `recordType`; otherwise "Medical Record", or "Medical Data" when `data_value` is not JSON |
| ResearcherConsent.DataDescription | src/assets/pages/Researcher_consent.jsx:63-70 | (definition) the record's truthy `description`; otherwise "Health data for research purposes", or "Encrypted health data" when `data_value` is not JSON |
| ResearcherConsent.FallbacksDiffer | src/assets/pages/Researcher_consent.jsx:53-70 | a record without the field is labelled differently from one that does not parse |
| ResearcherConsent.LoadedStatus | src/assets/pages/Researcher_consent.jsx:30 | a missing or empty status loads as "pending"; any other is kept; never empty |
| ResearcherConsent.Transform | src/assets/pages/Researcher_consent.jsx:25-40 | a loaded request keeps the backend id (also as `requestId`) and has the loaded status |
| ResearcherConsent.TransformAll | src/assets/pages/Researcher_consent.jsx:25-40 | the list is transformed row by row, in order |
| ResearcherConsent.Filtered | src/assets/pages/Researcher_consent.jsx:147-150 | the filtered list is never longer than the list |
| ResearcherConsent.StatusCount | src/assets/pages/Researcher_consent.jsx:243 | a tab's count is at most the number of requests |
| ResearcherConsent.FilterAllKeepsEverything | src/assets/pages/Researcher_consent.jsx:147-148 | filter "all" shows every request, in order |
| ResearcherConsent.FilterByStatus | src/assets/pages/Researcher_consent.jsx:147-150 | any other filter shows exactly the requests with that status, as many as its tab count says |
| ResearcherConsent.StatsWithinTotal | src/assets/pages/Researcher_consent.jsx:347-366 | the pending, approved and declined tiles add up to at most the total tile |
| ResearcherConsent.SetStatus | src/assets/pages/Researcher_consent.jsx:94-100 | exactly the requests with that id take the new status; the others are unchanged |
| ResearcherConsent.SetStatusUnknownId | src/assets/pages/Researcher_consent.jsx:94-100 | an id no request has changes nothing |
| ResearcherConsent.ButtonsExclusive | src/assets/pages/Researcher_consent.jsx:300-333 | no request shows both Cancel and Withdraw |
| ResearcherConsent.CancelOffered | src/assets/pages/Researcher_consent.jsx:300-310 | (definition) the Cancel button shows exactly for a pending request |
| ResearcherConsent.WithdrawOffered | src/assets/pages/Researcher_consent.jsx:312-322 | (definition) the Withdraw button shows exactly for an approved request |
| ResearcherConsent.NoActionAfterCancelOrWithdraw | src/assets/pages/Researcher_consent.jsx:92-137 | a cancelled or withdrawn request shows neither button any more |
| ResearcherConsent.StatusText | src/assets/pages/Researcher_consent.jsx:171-186 | an unknown status is shown as itself |
| ResearcherConsent.KnownLabelsDistinct | src/assets/pages/Researcher_consent.jsx:171-186 | the five known statuses have five different labels |
| ResearcherConsent.StatusColor | src/assets/pages/Researcher_consent.jsx:153-168 | any status other than approved, pending, declined and withdrawn is grey |
| ResearcherConsent.ResearcherConsentPage.constructor | src/assets/pages/Researcher_consent.jsx:4-7 | no requests, loading, no error, filter "all" |
| ResearcherConsent.ResearcherConsentPage.FetchConsentRequests | src/assets/pages/Researcher_consent.jsx:10-50 | a successful reply replaces the list with the transformed rows; a non-ok reply sets "Failed to fetch consent requests"; a failure sets its message; loading always ends |
| ResearcherConsent.ResearcherConsentPage.SetFilter | src/assets/pages/Researcher_consent.jsx:230-233 | the filter is the tab chosen |
| ResearcherConsent.ResearcherConsentPage.HandleCancel | src/assets/pages/Researcher_consent.jsx:73-107 | only an ok and successful reply marks the request "cancelled"; any other outcome changes nothing |
| ResearcherConsent.ResearcherConsentPage.HandleWithdraw | src/assets/pages/Researcher_consent.jsx:110-144 | only an ok and successful reply marks the request "withdrawn"; any other outcome changes nothing |
| ResearcherConsent.ResearcherConsentPage.VisibleRequests | src/assets/pages/Researcher_consent.jsx:147-150 | (definition) the rendered list is the requests filtered by the current filter |
| ConsentPage.InitialNotifications | src/assets/pages/Consent.jsx:3-25 | three notifications with ids 1, 2 and 3, pending, approved and pending |
| ConsentPage.ActionStatus | src/assets/pages/Consent.jsx:34 | "approve" gives "Approved" and only it; anything else gives "Declined" |
| ConsentPage.ApplyAction | src/assets/pages/Consent.jsx:31-37 | exactly the notifications with that id take the action's status |
| ConsentPage.OnlyThatIdChanges | src/assets/pages/Consent.jsx:31-37 | an action changes no id, title, type or time, and only the status of its own notifications |
| ConsentPage.UnknownIdChangesNothing | src/assets/pages/Consent.jsx:31-37 | an id no notification has changes nothing |
| ConsentPage.ActionIsIdempotent | src/assets/pages/Consent.jsx:30-38 | repeating an action changes nothing more |
| ConsentPage.LastActionWins | src/assets/pages/Consent.jsx:30-38 | of two actions on one id, the later decides |
| ConsentPage.ActedOnShowsNoControls | src/assets/pages/Consent.jsx:66-81 | once acted on, a notification no longer shows Approve and Decline |
| ConsentPage.ShowsControls | src/assets/pages/Consent.jsx:66 | (definition) Approve and Decline show exactly while the status is "Pending" |
| ConsentPage.ConsentPage.constructor | src/assets/pages/Consent.jsx:28 | the page starts with the initial notifications |
| ConsentPage.ConsentPage.HandleAction | src/assets/pages/Consent.jsx:30-38 | the notifications become `ApplyAction` of the old ones |
| ResearcherRecords.Pick | src/assets/pages/Researcher_records.jsx:23-29 | `Math.floor(r * n) + base` lies in `[base, base + n)` |
| ResearcherRecords.FileNames | src/assets/pages/Researcher_records.jsx:25-27 | `count` names `medical_file_<j+1>.<ext>`, with the extension cycling through pdf, png, dcm, doc |
| ResearcherRecords.FileName | src/assets/pages/Researcher_records.jsx:26 | (definition) `medical_file_<j+1>.<ext>`, the extension cycling through pdf, png, dcm and doc |
| ResearcherRecords.Notes | src/assets/pages/Researcher_records.jsx:24 | (definition) the fixed notes text with the patient number `i + 1` |
| ResearcherRecords.DummyRecord | src/assets/pages/Researcher_records.jsx:18-30 | record `i` has id `i+1`, type `i % 6` and a date `i` days back. It has 1-5 files, 2-5 file names and a price `floor(50r) + 10`, which is in 10..59 |
| ResearcherRecords.DummyRecords | src/assets/pages/Researcher_records.jsx:17-32 | thirty records with ids 1..30, cycling types, prices in 10..59 and 1-5 files |
| ResearcherRecords.DummyIdsDistinct | src/assets/pages/Researcher_records.jsx:19 | the generated ids are distinct |
| ResearcherRecords.MatchesSearch | src/assets/pages/Researcher_records.jsx:48-52 | (definition) the lower-cased term occurs in the lower-cased patient name or in the lower-cased type |
| ResearcherRecords.Filtered | src/assets/pages/Researcher_records.jsx:48-52 | the shown list is never longer than the list |
| ResearcherRecords.FilteredExactly | src/assets/pages/Researcher_records.jsx:48-52 | a record is shown exactly when its patient or type includes the search term, ignoring ASCII case |
| ResearcherRecords.EmptySearchKeepsAll | src/assets/pages/Researcher_records.jsx:48-52 | an empty search shows every record, in order |
| ResearcherRecords.StageOf | src/assets/pages/Researcher_records.jsx:97-166 | the stage is checked in the order requested, ready to pay, purchased, open |
| ResearcherRecords.Badge | src/assets/pages/Researcher_records.jsx:97-124 | (definition) "Request Sent", "Ready to Pay", "Purchased" or the record type, tested in that order |
| ResearcherRecords.Action | src/assets/pages/Researcher_records.jsx:127-166 | (definition) a pending marker, a Pay button with the price, Access Data, or Request to Purchase, tested in that order |
| ResearcherRecords.BadgeMatchesAction | src/assets/pages/Researcher_records.jsx:97-166 | badge and button agree at each stage; a ready record's Pay button shows its price |
| ResearcherRecords.Lifecycle | src/assets/pages/Researcher_records.jsx:55-94 | request, the timer's acceptance and payment move a record from open through requested and ready to purchased, keeping the three sets disjoint |
| ResearcherRecords.StatsAddUp | src/assets/pages/Researcher_records.jsx:242-258 | with disjoint sets, the three stage tiles count distinct records |
| ResearcherRecords.MarketplacePage.constructor | src/assets/pages/Researcher_records.jsx:5-12 | no records, no search, empty sets, no modal, no selection, amount 0 |
| ResearcherRecords.MarketplacePage.LoadDummyRecords | src/assets/pages/Researcher_records.jsx:17-32 | the records become the generated thirty |
| ResearcherRecords.MarketplacePage.SetSearchTerm | src/assets/pages/Researcher_records.jsx:263-268 | the search term is the input's value |
| ResearcherRecords.MarketplacePage.HandleRequestPurchase | src/assets/pages/Researcher_records.jsx:55-56 | the record's id joins the requested set |
| ResearcherRecords.MarketplacePage.AcceptRequest | src/assets/pages/Researcher_records.jsx:59-67 | the timer moves the id from requested to ready to pay |
| ResearcherRecords.MarketplacePage.HandleInitiatePayment | src/assets/pages/Researcher_records.jsx:71-75 | the record is selected, its price becomes the amount, and the modal opens |
| ResearcherRecords.MarketplacePage.HandlePaymentComplete | src/assets/pages/Researcher_records.jsx:78-94 | with a selection, its id moves from ready to purchased, the modal closes and the selection clears; without one nothing changes |
| ResearcherRecords.MarketplacePage.CancelPayment | src/assets/pages/Researcher_records.jsx:216-221 | Cancel closes the modal |
| ResearcherRecords.MarketplacePage.CurrentStats | src/assets/pages/Researcher_records.jsx:242-258 | the tiles show the record count and the three set sizes |
| ResearcherRecords.MarketplacePage.VisibleRecords | src/assets/pages/Researcher_records.jsx:48-52 | (definition) the rendered list is the records filtered by the current search term |
| ResearcherRecords.MarketplacePage.ModalVisible | src/assets/pages/Researcher_records.jsx:171 | (definition) the payment modal shows exactly when it is open and a record is selected |
| RecordsPage.Names | src/assets/pages/Records.jsx:37 | one name per file, in order |
| RecordsPage.ToStored | src/assets/pages/Records.jsx:52-56 | a stored record is the form plus `id` and `date` |
| RecordsPage.SubmittedRecordOk | src/assets/pages/Records.jsx:46-57 | a checked form with a file becomes a record with at least one file, a digit rate and consistent file fields |
| RecordsPage.RateFilter | src/assets/pages/Records.jsx:196-201 | `/^\d*$/` accepts "", and an extended value exactly when it was accepted and the new character is a digit |
| RecordsPage.RecordsPage.constructor | src/assets/pages/Records.jsx:5-14 | no records, modal closed, empty form |
| RecordsPage.RecordsPage.OpenModal | src/assets/pages/Records.jsx:80-81 | the modal opens |
| RecordsPage.RecordsPage.CloseModal | src/assets/pages/Records.jsx:145-150 | the modal closes |
| RecordsPage.RecordsPage.HandleChange | src/assets/pages/Records.jsx:30-33 | only the named field takes the value |
| RecordsPage.RecordsPage.HandleFileChange | src/assets/pages/Records.jsx:35-44 | the selection replaces the files, their count and their names |
| RecordsPage.RecordsPage.HandleRateChange | src/assets/pages/Records.jsx:196-201 | only an all-digit value is taken |
| RecordsPage.RecordsPage.HandleSubmit | src/assets/pages/Records.jsx:46-67 | it alerts exactly when there is no file, and then nothing changes. Otherwise the form is appended with `id` and `date`, the form is reset and the modal closes; every stored record stays well-formed |
| Anonymise.Assign | AI/model.py:20-34 | `df[c] = v` replaces an existing column where it stands and appends a new one |
| Anonymise.AssignWellFormed | AI/model.py:20-34 | assigning a full-height column keeps the frame well-formed |
| Anonymise.Constant | AI/model.py:34 | a broadcast scalar fills every row |
| Anonymise.ZfillValue | AI/model.py:20 | zero padding keeps a number's value |
| Anonymise.PatientNamesDistinct | AI/model.py:20 | different rows get different `PatientX-` names |
| Anonymise.PatientNameExamples | AI/model.py:20 | row 0 is "PatientX-001"; row 999 is "PatientX-1000" (zfill does not cut) |
| Anonymise.NameColumn | AI/model.py:20 | row `k` is named `PatientX-<k+1, three digits>` |
| Anonymise.PatientName | AI/model.py:20 | (definition) row `i` is named "PatientX-" and `i + 1` in decimal, padded with zeros to three digits |
| Anonymise.Named | AI/model.py:17-20 | (definition) the copied frame with its `name` column replaced by the PatientX ids |
| Anonymise.Aged | AI/model.py:20-27 | (definition) the named frame with its `age` column replaced by the given ranges |
| Anonymise.Trunc | AI/model.py:24 | `int()` of a float truncates toward zero |
| Anonymise.Lower | AI/model.py:24 | (definition) `(age // 10) * 10`; Python's `//` floors, as Dafny's `/` does for the divisor 10 |
| Anonymise.IntOf | AI/model.py:24 | (definition) `int(cell)`: an integer stays, a float truncates, a NaN raises, and text converts only as an optional sign followed by digits |
| Anonymise.AgeToRange | AI/model.py:23-26 | (definition) the text "lower-upper", with `lower = (age // 10) * 10` and `upper = lower + 10` |
| Anonymise.AgeBucket | AI/model.py:23-26 | the range starts at a multiple of ten, is ten wide and holds the age (negative ages included) |
| Anonymise.SameLabelSameDecade | AI/model.py:23-26 | two ages get the same label exactly when they are in the same decade |
| Anonymise.AgeColumn | AI/model.py:27 | a successful `apply` yields one value per row |
| Anonymise.RangeOf | AI/model.py:23-26 | one cell converts exactly when `int()` accepts it, and then becomes the range of its integer |
| Anonymise.AgeColumnOk | AI/model.py:27 | `apply` succeeds exactly when every age converts |
| Anonymise.AgeColumnValues | AI/model.py:27 | a successful `apply` gives each row the range of its own age |
| Anonymise.AgeColumnFailsAt | AI/model.py:27 | a failed `apply` reports the first row whose age does not convert |
| Anonymise.AgeColumnSpec | AI/model.py:23-27 | `apply` succeeds exactly when every age converts, giving each row its range; otherwise it fails at the first row that does not |
| Anonymise.HideAllEffect | AI/model.py:30-34 | the loop sets exactly the listed columns that exist to "Hidden", adds no column and keeps the others |
| Anonymise.HideOne | AI/model.py:33-34 | (definition) a column that is present is set to "Hidden" in every row; an absent column is not added |
| Anonymise.HideAll | AI/model.py:30-34 | (definition) `HideOne` for each listed column, in list order |
| Anonymise.AnonymisedFails | AI/model.py:17-34 | the step fails exactly without an `age` column, or at a row whose age `int()` refuses |
| Anonymise.Anonymised | AI/model.py:17-34 | (definition) on a copy: rename the rows, fail without an `age` column or at the first age `int` refuses, convert ages to ranges, then hide the listed columns |
| Anonymise.AgedWellFormed | AI/model.py:20-27 | after the name and age assignments, the frame is still well-formed |
| Anonymise.AnonymisedShape | AI/model.py:17-34 | the result keeps the columns and rows, adds `name` last when absent, and is well-formed |
| Anonymise.AnonymisedColumn | AI/model.py:17-34 | names are replaced, ages become ranges, listed columns are hidden, every other column is unchanged |
| Anonymise.DataFrame.constructor | AI/model.py:12 | a frame holds the given table |
| Anonymise.DataFrame.Copy | AI/model.py:17 | `df.copy()` holds the same table |
| Anonymise.DataFrame.SetColumn | AI/model.py:20-34 | the frame becomes `Assign` of its old table |
| Anonymise.HideColumns | AI/model.py:32-34 | the loop leaves the frame at `HideAll` of its old table |
| Anonymise.AnonymiseForMarketplace | AI/model.py:17-34 | succeeds exactly when `Anonymised` does; the new frame holds its result, and the input frame is not modified |

## Left out

- Node access, transaction receipts and contract reads are inputs. The adapter's `try/catch` logging and the texts of the errors it rethrows are not modelled.
- Blockchain.IsAddress: `ethers.isAddress` is read by shape only: 40 hex digits with or without "0x", or an ICAP "XE.." address. Its two checksum rules are not modelled, the mixed-case (EIP-55) one and ICAP's mod-97 check digits. So a mixed-case address with a wrong checksum, or an ICAP address with wrong check digits, is accepted here and refused by the source.
- keccak256, SHA-256, bcrypt and HMAC-SHA256 are abstract functions. `HashPassword` keeps the password as its secret, so `Compare` is exact, with no collision.
- `getDeploymentStatus` (backend/blockchain.js:310-312) returns what `verifyContractDeployment` does. `Blockchain.Adapter.VerifyContractDeployment` covers both.
- `dataExists` (backend/blockchain.js:95-105) has no caller in the core and is not modelled.
- PostgreSQL compares `$n` parameters after casting between integer ids and text. The model compares the text form of the parameter. NULL matches nothing.
- A SELECT without ORDER BY is taken in table order. `ORDER BY requested_at DESC` is modelled as a stable insertion sort over that order.
- The `req.session` store and cookies are reduced to `AuthController.Session`. JWT middleware and routing are not modelled.
- Records stored by `storeData` have no `amount` column value, so `createOrder` refuses them with 400 (`PaymentsController.NullAmountRefused`). Nothing in the core sets an amount.
- `getResearchers` reads `user.email`, but signup stores `mail`. The model keeps the `email` column as an input.
- `declineConsent` is imported by the routes but not defined in the core, so it is not modelled.
- The researcher consent page calls `researcher-requests`, `cancel-request` and `withdraw-access`. No backend route implements them, so their replies are inputs.
- `toLocaleString`, `toISOString` and `Date.now()` are not modelled. A timestamp or date stays the value it was given.
- `JSON.parse` yields a flat object of JavaScript values.
- GSAP animations, alerts, scrolling and rendering are not modelled.
- The success alert after payment (a 500 ms timer) is not modelled. The 2-second acceptance timer is the separate method `ResearcherRecords.MarketplacePage.AcceptRequest`.
- The `required` attribute of the upload form is browser validation and is not modelled.
- `RecordsPage.RecordsPage.HandleSubmit`: `Date.now()` and the date text are parameters. Two submits within one millisecond share an id; that collision is not modelled.
- Python's `int()` on text is modelled for an optional sign followed by digits. Surrounding whitespace and `_` separators are refused rather than accepted.
- `read_csv`, `to_csv` and the training code (AI/model.py:43-89) are not modelled.
- JsValues.JsVal has no object or array values. So a JSON body field holding an object or array, or a repeated query key, cannot be expressed. In the source `parseInt([5])` is 5, `parseInt(["1","2"])` is 1 (via "1,2"), `===` compares objects by reference, and `[]` and `{}` are truthy; none of that is modelled.
- JsValues.ToLower: lowers only ASCII A–Z. JavaScript's Unicode case mapping is not modelled; it lowers other letters and can change the length ("İ" becomes two characters).
- JavaScript numbers are modelled as unbounded integers (`JsValues.JsVal.Num(n: int)`). A request body cannot carry a fractional number or NaN, and there is no 2^53 limit on safe integers.
- Only the UPDATE of `grantConsent` (backend/controller/data.controller.js:174-177) may fail, through its `DbOutcome` parameter. Every other `pool.query` in `DataController.DataStore`, `AuthController.UserStore`, `ProfileController.ProfileStore` and `PaymentsController.CreateOrder` is modelled as never rejecting, so the 500 replies of their catch blocks for a database error are not modelled.
- Blockchain.Adapter.GetAccounts: runs the corrected `AccountsStep`, which leaves the cache empty when the listing has no valid address. The as-written step, which caches `[]`, is modelled separately as `AccountsStepAsWritten` (see Findings). So the adapter in this model asks the node again after that error, where the source returns `[]` from the cache.
- Blockchain.LoadedAccounts: states the corrected step; on an empty normalised listing the source caches `[]` (`Blockchain.EmptyListingStaysCachedAsWritten`).
- Blockchain.AccountsStepKeepsCacheOk: holds of the corrected step only; the as-written step puts `[]` into the cache.
- Blockchain.Adapter.GetSigner, Blockchain.Adapter.GetContract and DataController.DataStore inherit the corrected account step from `GetAccounts`.
- `ResearcherRecords.DummyRecord`: the price comment says "$10-$60", but the expression gives 10..59. The model follows the expression.

## Findings

| source | as written | input that shows it | evidently intended | confidence | as-written member | corrected member |
|---|---|---|---|---|---|---|
| backend/blockchain.js:37-50 | `cachedAccounts` is assigned the filtered listing before the emptiness check. The error is thrown after that, and `[]` is truthy, so the cache keeps `[]` | a node listing only `"not-an-address"`: the first call fails, and later calls return `[]` without asking the node again | leave the cache empty on that error, so a later call asks the node again | not executed | Blockchain.EmptyListingStaysCachedAsWritten | Blockchain.EmptyListingIsRetried |
| backend/controller/payments.controller.js:75-81 | when the signature matches, the code only logs "Payment Verified!". It then replies 400 "Invalid signature!" on every path | the signature `hmacHex(key, order_id + "\|" + payment_id)`, which is exactly the expected one | reply 200 on a match and 400 otherwise | not executed | PaymentsController.ValidSignatureRefusedAsWritten | PaymentsController.VerifyPayment |
