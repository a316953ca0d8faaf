# RateVault: a Dafny model of the rating registry and its FHEVM client

RateVault collects ratings with encrypted scores. A creator opens a campaign with 2 to 10
named dimensions and a score range. Each participant submits one encrypted score per
dimension, once. The contract adds every submission into encrypted totals, one per
dimension. Each participant can decrypt their own scores, and the creator can decrypt the totals.

This project models in Dafny the parts that carry the logic:

- **The registry contract** (`RatingVault`). The contract's Solidity source is not part of
  this model. Its behaviour follows what its Hardhat tests assert and what its client relies
  on. Where neither says anything, the model makes the choices listed under "Assumptions"
  below.
- **The grant cache** (`DecryptionSignature`). This is the user-decryption signature cache in
  `localStorage`.
- **The creation form** (`CreateForm`).
- **The hook that drives the contract** (`VaultClient`).
- **The mock adapter's encoders** (`MockAdapter`).
- **Backend selection** (`FhevmBootstrap`).
- **The wallet session** (`Wallet`).
- **The instance hook** (`FhevmHook`).
- **The navigation bar's formatting** (`Navbar`).

A few small modules support them:

- `JsString` models `trim`, ASCII `toLowerCase`, `includes`, `startsWith`, `join`,
  `toString` and `parseInt(s, 16)`.
- `JsSort` models the default `Array.prototype.sort`: lexicographic by character (code point).
- `Storage` models `localStorage` as a map.
- `FhevmTypes` holds the grant and EIP-712 records.
- `Common` holds Option, Result and byte.

**Parameters instead of the outside world.** The clock, the wallet, the chain, the FHEVM
instance, the relayer SDK and the node's RPC replies are all parameters. An asynchronous
call becomes the value it settles to: an `Ok` value, or an `Err` carrying the error message.
An error that has no message is written `""`.

**Ciphertexts.** In the contract, a ciphertext is the term of FHE operations that produced
it. A valuation of the input handles gives each term its plaintext, with `euint32` addition
wrapping modulo 2^32. This lets the model state that each total decrypts to the sum of the
accepted scores. The hook's submit loop and the form's error record are written as
imperative Dafny, as the source writes them. So are the storage purge and every
state-changing hook action.

**Assumptions where the contract source is missing:**

- `createRating` checks the dimension count first, then the score range, then the deadline.
- A submission is refused after the deadline when `deadline != 0` and `now > deadline`.
- `closeRating` on a campaign that is already closed succeeds and closes it again.
- A campaign's dimension names are not checked by the contract. They are checked by the form.
- The submit tests are unfinished: only the duplicate submission ("Already rated"), `hasRated`
  and `participantCount` are asserted. The other submit reverts are model choices: an unknown
  id, a closed campaign, an expired campaign, a wrong number of handles and a rejected proof.
  So is their order: unknown id, closed, expired, already rated, handle count, proof.
- `closeRating` on an unknown id reverts before the creator is checked.
- A non-zero deadline equal to the current block time is rejected as `Invalid deadline`. The
  tests check only one day in the past and one day in the future.
- `getRatings(offset, limit)` returns at most `limit` campaigns and none past the end. The
  tests show only `getRatings(0, 2)` on two campaigns.
- Known revert strings: "2-10 dimensions required", "minScore < maxScore", "Invalid deadline",
  "Already rated" and "Not creator". The strings of the other reverts are not known.

**Behaviour of the code to note:**

- A cached grant is not re-checked for expiry when it is used for decryption. `userDecrypt`
  receives whatever grant `loadOrSign` returned.
- `loadOrSign` rejects when the signer cannot give its address. A failed signature yields
  `null`, not an error.

## Model

| member | source | states |
|---|---|---|
| RatingVault.Vault.constructor | fhevm-hardhat-template/test/RatingVault.ts:12-18 | a fresh deployment has no campaigns, no lists, no submissions; the invariant holds |
| RatingVault.InvEmpty | fhevm-hardhat-template/test/RatingVault.ts:12-18 | the empty storage satisfies the registry invariant |
| RatingVault.Vault.CreateRating | fhevm-hardhat-template/test/RatingVault.ts:20-69 | a dimension count outside 2..10 reverts first, then minScore >= maxScore, then a past non-zero deadline; on success the campaign is stored verbatim with the next id, active and with no participant, appended to the creator's list, and RatingCreated(id, creator, name, dimension count) is emitted; a revert changes nothing; the three reverts carry "2-10 dimensions required", "minScore < maxScore" and "Invalid deadline"; success exactly when all three rules hold |
| RatingVault.Vault.AppendCampaign | fhevm-hardhat-template/test/RatingVault.ts:156-177 | a successful creation increments ratingCount, appends the campaign and zero totals, pushes the id on the creator's list and emits the event, and keeps the invariant |
| RatingVault.InvAfterCreate | fhevm-hardhat-template/test/RatingVault.ts:161-177 | appending a well-formed campaign with the next id keeps every part of the invariant (creator lists exact and increasing, totals equal to the accepted rows) |
| RatingVault.CreatedAfterCreate | fhevm-hardhat-template/test/RatingVault.ts:168-177 | after a creation each creator's list still holds exactly the ids of their campaigns, in increasing order |
| RatingVault.Vault.SubmitRating | fhevm-hardhat-template/test/RatingVault.ts:71-114 | a second submission by the same participant reverts with "Already rated" and changes nothing (the test's case); an unknown id, a closed or expired campaign, a wrong handle count and a rejected proof also revert and change nothing (the assumed order is listed above); an accepted one raises participantCount by 1, adds each score to its total, stores the sender's scores and lists the campaign as rated by the sender |
| RatingVault.RevertReason | fhevm-hardhat-template/test/RatingVault.ts:20-144 | a revert string is known exactly for the three creation rules, a duplicate submission and a close by a non-creator, and is never empty |
| RatingVault.RevertReasonInjective | fhevm-hardhat-template/test/RatingVault.ts:43-60 | a known revert string determines its rule |
| RatingVault.Vault.RecordSubmission | fhevm-hardhat-template/test/RatingVault.ts:85-107 | the effect of an accepted submission on every field, keeping the invariant |
| RatingVault.InvAfterSubmit | fhevm-hardhat-template/test/RatingVault.ts:85-113 | an accepted submission keeps the invariant: hasRated holds exactly for recorded raters, one row per distinct rater, participantCount equal to the row count |
| RatingVault.AggregatesAfterSubmit | fhevm-hardhat-template/test/RatingVault.ts:97-107 | after a submission each total is still the accumulation of the accepted rows and participantCount counts them |
| RatingVault.SubmissionsAfterSubmit | fhevm-hardhat-template/test/RatingVault.ts:85-95 | after a submission stored scores exist exactly for (campaign, rater) pairs, with one score per dimension |
| RatingVault.RatedByAfterSubmit | fhevm-hardhat-template/test/RatingVault.ts:109-113 | after a submission the rater's list holds each rated campaign exactly once |
| RatingVault.CreatedAfterSubmit | fhevm-hardhat-template/test/RatingVault.ts:168-177 | a submission leaves the creator lists correct |
| RatingVault.Vault.CloseRating | fhevm-hardhat-template/test/RatingVault.ts:116-144 | an unknown id reverts (assumed, checked first); a non-creator gets "Not creator" and nothing changes; the creator succeeds, active becomes false, RatingClosed(id) is emitted and nothing else changes |
| RatingVault.InvAfterClose | fhevm-hardhat-template/test/RatingVault.ts:129-135 | closing a campaign keeps the invariant |
| RatingVault.Vault.GetRating | fhevm-hardhat-template/test/RatingVault.ts:179-184 | returns the campaign with that id (which carries that id and is well formed) exactly when it exists |
| RatingVault.Vault.GetRatings | fhevm-hardhat-template/test/RatingVault.ts:161-166 | returns min(limit, count - offset) campaigns starting at offset, in ascending id order; none past the end (the clamping is assumed, the tests show one window) |
| RatingVault.Vault.GetMyCreatedRatings | fhevm-hardhat-template/test/RatingVault.ts:168-177 | holds exactly the ids of the caller's campaigns, strictly increasing (creation order) |
| RatingVault.Vault.GetMyRatedRatings | ratevault-frontend/hooks/useRatingVault.tsx:172-184 | holds exactly the campaigns the participant has rated, each once, all existing |
| RatingVault.Vault.GetAggregatedScores | ratevault-frontend/hooks/useRatingVault.tsx:341-346 | the encrypted totals, one per dimension, exactly for an existing campaign |
| RatingVault.Vault.GetMyRating | ratevault-frontend/hooks/useRatingVault.tsx:251-256 | the caller's stored scores, one per dimension, non-empty exactly when the caller has rated |
| RatingVault.AccumulateDecrypts | ratevault-frontend/components/RatingStats.tsx:83-86 | the k-th accumulator decrypts to the sum of the k-th scores of the rows, modulo 2^32 |
| RatingVault.AggregatesAreSums | ratevault-frontend/components/RatingStats.tsx:83-86 | in every reachable state a campaign's k-th total decrypts to the sum of the accepted k-th scores, modulo 2^32 |
| RatingVault.ColumnSumPermutation | ratevault-frontend/components/RatingStats.tsx:83-86 | a column sum does not depend on the order of the rows |
| RatingVault.AggregateOrderIndependent | ratevault-frontend/components/RatingStats.tsx:83-86 | the decrypted totals are the same whatever order the same submissions arrived in |
| RatingVault.AccumulateAppend | fhevm-hardhat-template/test/RatingVault.ts:97-107 | accumulating one more row is adding that row onto the previous totals |
| DecryptionSignature.StorageKey | ratevault-frontend/fhevm/FhevmDecryptionSignature.ts:40-43 | the key starts with "fhevm.decryptionSignature." |
| DecryptionSignature.StorageKeyOrderIndependent | ratevault-frontend/fhevm/FhevmDecryptionSignature.ts:40-43 | two address lists with the same elements give the same key |
| DecryptionSignature.Construct | ratevault-frontend/fhevm/FhevmDecryptionSignature.ts:29-38 | the constructed grant's addresses are a sorted permutation of the given ones; every other field is copied |
| DecryptionSignature.ConstructIdempotent | ratevault-frontend/fhevm/FhevmDecryptionSignature.ts:29-38 | constructing a constructed grant changes nothing |
| DecryptionSignature.Load | ratevault-frontend/fhevm/FhevmDecryptionSignature.ts:45-73 | a grant comes back exactly when a grant record is stored under the key and has not expired, as constructed from the record; the store changes exactly when an expired grant is evicted, and then only by removing that key |
| DecryptionSignature.LoadTwice | ratevault-frontend/fhevm/FhevmDecryptionSignature.ts:45-73 | loading again gives the same answer and changes nothing further |
| DecryptionSignature.LoadEarlier | ratevault-frontend/fhevm/FhevmDecryptionSignature.ts:58-66 | a grant that loads at some time loads unchanged at every earlier time |
| DecryptionSignature.LoadFromStorage | ratevault-frontend/fhevm/FhevmDecryptionSignature.ts:45-73 | the result and the new store are those of Load |
| DecryptionSignature.SaveToStorage | ratevault-frontend/fhevm/FhevmDecryptionSignature.ts:75-81 | the grant is written under the key of its own user and contracts; nothing else changes |
| DecryptionSignature.SaveThenLoad | ratevault-frontend/fhevm/FhevmDecryptionSignature.ts:45-81 | an unexpired constructed grant that was saved loads back equal, under any ordering of its contract list, without changing the store |
| DecryptionSignature.Request | ratevault-frontend/fhevm/FhevmDecryptionSignature.ts:97-105 | the typed data is a UserDecryptRequestVerification over the public key, the sorted contracts, now and 365 days |
| DecryptionSignature.Fresh | ratevault-frontend/fhevm/FhevmDecryptionSignature.ts:114-123 | a new grant starts now, lasts 365 days, holds the sorted contracts, the key pair, the signer's address and signature, and the request it signed |
| DecryptionSignature.FreshLifetime | ratevault-frontend/fhevm/FhevmDecryptionSignature.ts:94-95 | a fresh grant is expired at a time exactly when 365 days have passed since its start |
| DecryptionSignature.FreshThenLoad | ratevault-frontend/fhevm/FhevmDecryptionSignature.ts:114-126 | a just-created grant is what loading under the same user and contracts returns for the next 365 days |
| DecryptionSignature.Create | ratevault-frontend/fhevm/FhevmDecryptionSignature.ts:83-133 | null exactly when the address or the signature fails, and then the store is untouched; otherwise the fresh grant, saved under its key |
| DecryptionSignature.LoadOrSignResult | ratevault-frontend/fhevm/FhevmDecryptionSignature.ts:135-152 | no address rejects; a live cached grant is returned with the store unchanged and nothing signed; otherwise (absent, unreadable or evicted) a refused signature gives null and leaves the store as the load left it, and a signature gives the fresh 365-day grant, saved under its user and sorted contracts; a returned grant is unexpired, sorted and is what the next load returns |
| DecryptionSignature.LoadOrSign | ratevault-frontend/fhevm/FhevmDecryptionSignature.ts:135-152 | the result and the new store are those of LoadOrSignResult |
| FhevmTypes.UserDecryptTypedData | ratevault-frontend/fhevm/fhevmTypes.ts:46-60 | the request has the primary type UserDecryptRequestVerification and carries the given domain, key, contracts, start and duration |
| Storage.LocalStorage.constructor | ratevault-frontend/fhevm/FhevmDecryptionSignature.ts:45-81 | a fresh store holds no keys |
| Storage.LocalStorage.GetItem | ratevault-frontend/fhevm/FhevmDecryptionSignature.ts:50 | the stored value, present exactly when the key is |
| Storage.LocalStorage.SetItem | ratevault-frontend/fhevm/FhevmDecryptionSignature.ts:80 | the key now maps to the value; other keys are kept |
| Storage.LocalStorage.RemoveItem | ratevault-frontend/fhevm/FhevmDecryptionSignature.ts:64 | the key is gone; other keys are kept |
| JsSort.Sort | ratevault-frontend/fhevm/FhevmDecryptionSignature.ts:41 | the sorted copy is sorted and a permutation of the input |
| JsSort.SortedUnique | ratevault-frontend/fhevm/FhevmDecryptionSignature.ts:41 | two sorted arrangements of the same strings are equal |
| JsSort.SortOrderIndependent | ratevault-frontend/fhevm/FhevmDecryptionSignature.ts:41 | the sorted copy depends only on the multiset of strings |
| JsSort.SortSorted | ratevault-frontend/fhevm/FhevmDecryptionSignature.ts:32 | sorting a sorted array leaves it unchanged |
| JsSort.SortIdempotent | ratevault-frontend/fhevm/FhevmDecryptionSignature.ts:32 | sorting twice is sorting once |
| JsSort.LessEqTotal | ratevault-frontend/fhevm/FhevmDecryptionSignature.ts:41 | the default comparator's order is total |
| JsSort.LessEqAntisymmetric | ratevault-frontend/fhevm/FhevmDecryptionSignature.ts:41 | the order is antisymmetric |
| JsSort.LessEqTransitive | ratevault-frontend/fhevm/FhevmDecryptionSignature.ts:41 | the order is transitive |
| JsSort.LessEqReflexive | ratevault-frontend/fhevm/FhevmDecryptionSignature.ts:41 | every string is below or equal to itself |
| JsSort.Insert | ratevault-frontend/fhevm/FhevmDecryptionSignature.ts:41 | inserting into a sorted array keeps it sorted and adds exactly the element |
| JsString.TrimStart | ratevault-frontend/app/create/page.tsx:50 | the result is a suffix that does not start with whitespace, and only whitespace was dropped |
| JsString.TrimEnd | ratevault-frontend/app/create/page.tsx:50 | the result is a prefix that does not end with whitespace, empty exactly for an all-whitespace string, and only whitespace was dropped |
| JsString.TrimEmptyIff | ratevault-frontend/app/create/page.tsx:50-58 | `s.trim()` is empty exactly when `s` is whitespace only |
| JsString.Join | ratevault-frontend/fhevm/FhevmDecryptionSignature.ts:41 | `parts.join(sep)`: a single part is itself; more parts are the first, the separator and the join of the rest |
| JsString.JoinLength | ratevault-frontend/fhevm/FhevmDecryptionSignature.ts:41 | the joined string starts with the first part and is as long as all parts plus one separator between each two |
| JsString.ToLower | ratevault-frontend/fhevm/fhevm.ts:20 | same length, each character lower-cased |
| JsString.ToLowerIdempotent | ratevault-frontend/fhevm/fhevm.ts:20 | lower-casing twice is lower-casing once |
| JsString.NatToString | ratevault-frontend/fhevm/mockAdapter.ts:7 | `n.toString(base)` is a non-empty string of digits of that base |
| JsString.NatToStringValue | ratevault-frontend/fhevm/mockAdapter.ts:7 | reading the digits back gives the number |
| JsString.IntToDecimalInjective | ratevault-frontend/hooks/useRatingVault.tsx:35 | distinct integers get distinct decimal strings |
| JsString.ParseIntHex | ratevault-frontend/fhevm/fhevm.ts:12 | `Number.parseInt(s, 16)`: an empty or whitespace-only string is NaN; a negative result comes only from a leading "-" |
| JsString.ParseIntHexPrefixed | ratevault-frontend/fhevm/fhevm.ts:12 | after a `0x` prefix the longest run of hexadecimal digits is read; none at all is NaN |
| JsString.ParseIntHexStopsAtNonDigit | ratevault-frontend/fhevm/fhevm.ts:12 | parsing a `0x` quantity stops at the first character that is not a hexadecimal digit and gives the quantity |
| JsString.ParseIntHexOfQuantity | ratevault-frontend/fhevm/fhevm.ts:11-12 | `parseInt("0x" + n.toString(16), 16)` is n |
| MockAdapter.PadStart | ratevault-frontend/fhevm/mockAdapter.ts:7 | the string ends the result, which is padded on the left with the pad character up to the length |
| MockAdapter.ByteHex | ratevault-frontend/fhevm/mockAdapter.ts:7 | two lower-case hex digits whose value is the byte |
| MockAdapter.ByteHexIsPaddedToString | ratevault-frontend/fhevm/mockAdapter.ts:7 | the two digits are `b.toString(16).padStart(2, '0')` |
| MockAdapter.ToHexString | ratevault-frontend/fhevm/mockAdapter.ts:5-6 | a string input is returned unchanged |
| MockAdapter.JoinIsPacked | ratevault-frontend/fhevm/mockAdapter.ts:7 | joining the per-byte digits with "" is the packed encoding |
| MockAdapter.ToHexStringShape | ratevault-frontend/fhevm/mockAdapter.ts:7 | n bytes give "0x" and 2n lower-case hex digits, 2 + 2n characters |
| MockAdapter.HexRoundTrip | ratevault-frontend/fhevm/mockAdapter.ts:7 | decoding the encoding gives the bytes back |
| MockAdapter.UnpackPacked | ratevault-frontend/fhevm/mockAdapter.ts:7 | the packed digits decode two by two to the bytes |
| MockAdapter.ToHexStringInjective | ratevault-frontend/fhevm/mockAdapter.ts:7 | different byte strings get different encodings |
| MockAdapter.EncryptResult | ratevault-frontend/fhevm/mockAdapter.ts:32-39 | as many handles as the mock produced, in order, each hex-encoded, and the encoded proof |
| MockAdapter.EncryptResultDecodes | ratevault-frontend/fhevm/mockAdapter.ts:32-39 | each byte handle and a byte proof decode back from what the adapter returns |
| MockAdapter.ReduceClosest | ratevault-frontend/fhevm/mockAdapter.ts:88-90 | the reduce returns a member of the list at least as near to the request as every member |
| MockAdapter.ReduceClosestEarliest | ratevault-frontend/fhevm/mockAdapter.ts:88-90 | the result is at a position before which every member is strictly farther |
| MockAdapter.ReduceClosestTie | ratevault-frontend/fhevm/mockAdapter.ts:88-90 | on an increasing list a tie goes to the smaller size |
| MockAdapter.ClosestAllowedSize | ratevault-frontend/fhevm/mockAdapter.ts:84-90 | an allowed size minimising the distance to the request |
| MockAdapter.ClosestOnTie | ratevault-frontend/fhevm/mockAdapter.ts:88-90 | a request midway between two neighbouring allowed sizes gets the smaller |
| MockAdapter.ClosestAbove | ratevault-frontend/fhevm/mockAdapter.ts:84-90 | any request of 2048 or more gets 2048 |
| MockAdapter.ClosestAllowedSizeExamples | ratevault-frontend/fhevm/mockAdapter.ts:84-90 | 12 gets 8, 24 gets 16, anything from 2048 up gets 2048 |
| MockAdapter.AllowedSizesIncreasing | ratevault-frontend/fhevm/mockAdapter.ts:84 | the allowed sizes are listed in increasing order |
| MockAdapter.GetPublicParams | ratevault-frontend/fhevm/mockAdapter.ts:81-100 | "" exactly when the mock has no parameters for the closest allowed size; otherwise their encoding, which decodes back to them |
| FhevmBootstrap.GetChainId | ratevault-frontend/fhevm/fhevm.ts:6-13 | an RPC URL gives its network's chain id; an injected provider's `eth_chainId` reply is parsed as hexadecimal; a failed request, of either kind, fails with its error |
| FhevmBootstrap.InjectedChainId | ratevault-frontend/fhevm/fhevm.ts:11-12 | a `0x`-prefixed reply selects the chain it names |
| FhevmBootstrap.AcceptMetadata | ratevault-frontend/fhevm/fhevm.ts:15-34 | metadata is accepted exactly when the client version is a string containing "hardhat" in lower case and the three addresses are present, and is then returned as is |
| FhevmBootstrap.AcceptMetadataIgnoresCase | ratevault-frontend/fhevm/fhevm.ts:20 | a version string and its lower-cased form are judged alike |
| FhevmBootstrap.RpcUrlOf | ratevault-frontend/fhevm/fhevm.ts:48 | the provider's URL, or http://localhost:8545 for an injected provider |
| FhevmBootstrap.MockConfigFor | ratevault-frontend/fhevm/fhevm.ts:66-77 | the mock configuration carries the metadata's addresses, the chain id, the RPC URL and gateway 55815 unless a non-zero one is given |
| FhevmBootstrap.RelayerSdk.constructor | ratevault-frontend/fhevm/fhevm.ts:108-112 | a fresh page has not initialised the relayer SDK and has run `initSDK` no times |
| FhevmBootstrap.RelayerSdk.CreateInstance | ratevault-frontend/fhevm/fhevm.ts:36-124 | a failed chain-id request fails with no notification; chain 31337 takes the mock path and leaves the SDK flag alone; every other chain takes the relayer path; an initialised SDK stays initialised without a second `initSDK` |
| FhevmBootstrap.CreateMockInstance | ratevault-frontend/fhevm/fhevm.ts:46-93 | without metadata "Hardhat node metadata not available" and no notification; otherwise "creating-mock" then the mock instance or the prefixed creation error |
| FhevmBootstrap.RelayerSdk.CreateRelayerInstance | ratevault-frontend/fhevm/fhevm.ts:95-123 | notifications sdk-loading, sdk-loaded, sdk-initializing only when not yet initialised, creating-instance, each step's failure stopping the sequence; "Relayer SDK not loaded" when the SDK is absent; `initSDK` completes at most once over all calls, and a failed `initSDK` is retried by the next call |
| FhevmBootstrap.PathsAreSeparate | ratevault-frontend/fhevm/fhevm.ts:46-114 | the mock path makes only the "creating-mock" notification; the relayer path starts with "sdk-loading" and never says "creating-mock" |
| FhevmHook.UnsupportedNetwork | ratevault-frontend/hooks/useFhevm.tsx:23 | the unsupported-network message starts with the fixed prefix |
| FhevmHook.UnsupportedNetworkInjective | ratevault-frontend/hooks/useFhevm.tsx:23 | the message names the chain: different chains give different messages |
| FhevmHook.ErrorMessage | ratevault-frontend/hooks/useFhevm.tsx:43-49 | never empty; a message containing "could not decode result data" becomes the network advice, else one containing "threads" the browser advice, else it is kept, a missing one becoming "Failed to initialize FHEVM" |
| FhevmHook.DecodeTakesPriority | ratevault-frontend/hooks/useFhevm.tsx:45-49 | a message containing both phrases gets the network advice |
| FhevmHook.OtherMessagesKept | ratevault-frontend/hooks/useFhevm.tsx:43-51 | a message with neither phrase reaches the user verbatim |
| FhevmHook.InstanceHook.constructor | ratevault-frontend/hooks/useFhevm.tsx:7-11 | the hook starts with no instance, not loading, no error and an empty status |
| FhevmHook.InstanceHook.Initialize | ratevault-frontend/hooks/useFhevm.tsx:13-58 | no provider or chain id clears the instance only; an unsupported chain clears it, sets the message naming the chain and stops loading; a supported chain ends not loading, with the last status, and either the new instance and no error or the old instance and the rewritten error |
| FhevmHook.InstanceHook.InitializeWith | ratevault-frontend/hooks/useFhevm.tsx:13-58 | `createFhevmInstance` is called on the raw provider only for a supported chain (otherwise the SDK is untouched and nothing is notified); the instance, error and status then come from that call's outcome (failed chain id, mock path for 31337, relayer path otherwise) |
| Navbar.SliceHead | ratevault-frontend/components/Navbar.tsx:13 | `slice(0, n)`: the first n characters, or the whole of a shorter string |
| Navbar.SliceTail | ratevault-frontend/components/Navbar.tsx:13 | `slice(-n)`: the last n characters, or the whole of a shorter string |
| Navbar.FormatAddress | ratevault-frontend/components/Navbar.tsx:12-14 | the first six characters, "...", the last four |
| Navbar.FormatAddressShape | ratevault-frontend/components/Navbar.tsx:12-14 | an address of ten or more characters gives 13 characters keeping its first six and last four |
| Navbar.FormatAddressOfAccount | ratevault-frontend/components/Navbar.tsx:12-14 | a 42-character account keeps its 0x and gives 13 characters |
| Navbar.GetNetworkName | ratevault-frontend/components/Navbar.tsx:16-27 | 1, 11155111 and 31337 are Ethereum, Sepolia and Hardhat; any other id is "Chain " followed by the id in decimal |
| Navbar.LabelInitial | ratevault-frontend/components/Navbar.tsx:16-27 | the four kinds of label start with different letters |
| Navbar.NetworkNameInjective | ratevault-frontend/components/Navbar.tsx:16-27 | different chains get different names |
| Wallet.WithoutGrants | ratevault-frontend/hooks/useWallet.tsx:192-196 | exactly the keys not under the grant prefix are kept, with their values |
| Wallet.NoGrantAfterPurge | ratevault-frontend/hooks/useWallet.tsx:192-196 | after the purge no grant loads, for any user and contracts |
| Wallet.SessionKeysSurvivePurge | ratevault-frontend/hooks/useWallet.tsx:185-196 | the five `wallet.*` keys are not under the grant prefix, so the purge keeps them |
| Wallet.Persisted | ratevault-frontend/hooks/useWallet.tsx:104-109 | a connect writes the five session keys (connected, uuid, rdns, accounts, decimal chain id) and keeps every other key |
| Wallet.Connected | ratevault-frontend/hooks/useWallet.tsx:74-129 | state and store are unchanged unless the accounts are non-empty and the signer and network are obtained; then connected with the first account, the chain, the signer and the provider, and the store is exactly the one `Persisted` writes (the five session keys) |
| Wallet.StoredText | ratevault-frontend/hooks/useWallet.tsx:206-208 | the stored text under a key, present exactly when a text is stored |
| Wallet.FindIndex | ratevault-frontend/hooks/useWallet.tsx:220 | the first position satisfying the test, or none when no position does |
| Wallet.Pick | ratevault-frontend/hooks/useWallet.tsx:219-225 | the chosen wallet is one of the available wallets |
| Wallet.PickPrefersUuid | ratevault-frontend/hooks/useWallet.tsx:220 | the first wallet with the stored uuid is chosen |
| Wallet.PickFallsBackToRdns | ratevault-frontend/hooks/useWallet.tsx:222-225 | with no uuid match and a stored rdns, the first wallet with that rdns is chosen, or none when no wallet has it |
| Wallet.ReconnectAfterConnect | ratevault-frontend/hooks/useWallet.tsx:104-109 | after a successful connect the next load passes the reconnect condition and finds the same wallet again |
| Wallet.WalletSession.constructor | ratevault-frontend/hooks/useWallet.tsx:28-38 | a new session is disconnected, with no wallets and not connecting |
| Wallet.WalletSession.Announce | ratevault-frontend/hooks/useWallet.tsx:44-47 | an announced wallet joins the list, at the end |
| Wallet.WalletSession.InjectedFallback | ratevault-frontend/hooks/useWallet.tsx:53-67 | with no announced wallet an injected provider becomes the single fallback wallet; otherwise the list is kept |
| Wallet.WalletSession.ConnectWallet | ratevault-frontend/hooks/useWallet.tsx:74-129 | the state and store become those of Connected; it ends not connecting |
| Wallet.WalletSession.PurgeGrants | ratevault-frontend/hooks/useWallet.tsx:192-196 | the loop over the keys leaves the store equal to WithoutGrants of the old one |
| Wallet.WalletSession.DisconnectWallet | ratevault-frontend/hooks/useWallet.tsx:175-197 | every field null and not connected; the five session keys and every cached grant removed and nothing else |
| Wallet.WalletSession.HandleAccountsChanged | ratevault-frontend/hooks/useWallet.tsx:131-156 | an empty list disconnects; a non-empty one with a provider whose `getSigner()` resolves replaces the address and signer, stores the accounts, purges every grant and reloads; a rejected `getSigner()` changes nothing and does not reload; without a provider nothing changes but the page reloads |
| Wallet.WalletSession.Reconnect | ratevault-frontend/hooks/useWallet.tsx:203-272 | nothing happens when connected or when the condition fails; with no matching wallet the three connector keys are cleared; a failed or empty `eth_accounts` clears all five; `isConnecting` is kept on those paths; otherwise it connects silently and ends not connecting |
| CreateForm.InitialFormInRange | ratevault-frontend/app/create/page.tsx:11-18 | the form starts with two empty dimension names |
| CreateForm.AddedDimension | ratevault-frontend/app/create/page.tsx:23-30 | "" is appended only below ten entries; otherwise the list is unchanged |
| CreateForm.Without | ratevault-frontend/app/create/page.tsx:36 | the filter drops exactly the entry at the index and keeps the others in order |
| CreateForm.RemovedDimension | ratevault-frontend/app/create/page.tsx:32-39 | above two entries exactly the indexed one is removed, the rest in order; otherwise nothing changes |
| CreateForm.EditsKeepRange | ratevault-frontend/app/create/page.tsx:23-39 | adding and removing keep 2 to 10 entries |
| CreateForm.RemoveAdded | ratevault-frontend/app/create/page.tsx:23-39 | removing the entry just added gives the list back |
| CreateForm.UpdatedDimension | ratevault-frontend/app/create/page.tsx:41-45 | the copy has the new value at the index and the old value everywhere else |
| CreateForm.FormValidMeaning | ratevault-frontend/app/create/page.tsx:47-75 | the rules hold exactly when the trimmed name, description and every dimension are non-empty, min < max, and the deadline is empty or after now |
| CreateForm.BlankIsEmptyTrim | ratevault-frontend/app/create/page.tsx:50 | a whitespace-only name is one whose trim is empty |
| CreateForm.AnyBlankMeaning | ratevault-frontend/app/create/page.tsx:58 | no blank dimension exactly when every trimmed dimension is non-empty |
| CreateForm.FormErrors | ratevault-frontend/app/create/page.tsx:47-71 | each of the five keys is set exactly when its rule fails, with its message, and no other key is set |
| CreateForm.NoErrorsIffValid | ratevault-frontend/app/create/page.tsx:73-74 | the record is empty exactly when the form is valid |
| CreateForm.DeadlineSeconds | ratevault-frontend/app/create/page.tsx:92-94 | 0 for an empty field, otherwise the milliseconds divided by 1000 and rounded down |
| CreateForm.ValidDeadlineNotPast | ratevault-frontend/app/create/page.tsx:66-71 | a deadline that passed validation is, in seconds, not before the current second |
| CreateForm.SubmittedParams | ratevault-frontend/app/create/page.tsx:96-103 | the form's fields are passed as they are, with the deadline in seconds |
| CreateForm.CreatePage.constructor | ratevault-frontend/app/create/page.tsx:11-21 | the page starts with the initial form, no errors and not submitting |
| CreateForm.CreatePage.AddDimension | ratevault-frontend/app/create/page.tsx:23-30 | the dimensions become AddedDimension of the old ones; nothing else changes |
| CreateForm.CreatePage.RemoveDimension | ratevault-frontend/app/create/page.tsx:32-39 | the dimensions become RemovedDimension of the old ones; nothing else changes |
| CreateForm.CreatePage.UpdateDimension | ratevault-frontend/app/create/page.tsx:41-45 | only the indexed dimension changes |
| CreateForm.CreatePage.Validate | ratevault-frontend/app/create/page.tsx:47-75 | records exactly the failing rules' keys with their messages (the record of FormErrors); returns whether the form is valid, which is whether that record is empty; the form is kept |
| CreateForm.CreatePage.HandleSubmit | ratevault-frontend/app/create/page.tsx:77-116 | disconnected: nothing happens; invalid: only the errors change, to the failing rules' keys and messages, and the registry is not called; valid: the registry's createRating is called once with the submitted parameters, the page ends not submitting and the hook's error is cleared after success or set to the failure message |
| VaultClient.MessageOr | ratevault-frontend/hooks/useRatingVault.tsx:93 | the error's message, or the fallback when it has none |
| VaultClient.ContractAddress | ratevault-frontend/hooks/useRatingVault.tsx:33-37 | none without a non-zero chain id; otherwise the deployment under the decimal chain id, when there is one |
| VaultClient.ContractAddressPerChain | ratevault-frontend/hooks/useRatingVault.tsx:33-37 | another chain's deployment never changes the address found for this chain |
| VaultClient.GetContract | ratevault-frontend/hooks/useRatingVault.tsx:39-47 | a contract at the address, through the signer exactly when asked, when an address exists; otherwise "Contract not deployed on this network" |
| VaultClient.RatingVaultHook.constructor | ratevault-frontend/hooks/useRatingVault.tsx:24-31 | the hook holds the given signer, provider, instance, chain and deployments, not loading and with no error |
| VaultClient.FirstRatingCreated | ratevault-frontend/hooks/useRatingVault.tsx:75-82 | the first log that parses as RatingCreated, or none when no log does |
| VaultClient.CreatedRatingId | ratevault-frontend/hooks/useRatingVault.tsx:84-88 | 0 when no log is a RatingCreated |
| VaultClient.CreatedRatingIdOfEvent | ratevault-frontend/hooks/useRatingVault.tsx:74-88 | the id of the first RatingCreated log is reported, whatever other logs come before or after |
| VaultClient.CreateOutcome | ratevault-frontend/hooks/useRatingVault.tsx:49-100 | no deployment fails with the not-deployed message; with a deployment, a mined transaction gives its hash and the id from its logs and a failed one gives its error, and success implies those conditions |
| VaultClient.RatingVaultHook.CreateRating | ratevault-frontend/hooks/useRatingVault.tsx:49-100 | the result is CreateOutcome; it ends not loading, with no error after success and the message (or "Failed to create rating") after a failure |
| VaultClient.EncryptedInput.constructor | ratevault-frontend/hooks/useRatingVault.tsx:119 | a new input for the contract and user holds no values |
| VaultClient.EncryptedInput.Add32 | ratevault-frontend/hooks/useRatingVault.tsx:122 | the value is appended |
| VaultClient.EncryptedInput.Encrypt | ratevault-frontend/hooks/useRatingVault.tsx:125 | the instance encrypts exactly the values added, for the contract and user |
| VaultClient.SubmitOutcome | ratevault-frontend/hooks/useRatingVault.tsx:112-136 | no address fails with "Contract address not found"; success means the scores were encrypted, in order, for (contract, user) and exactly those handles and that proof were submitted through the signer; conversely, with an address and a signer address, a failed encryption or submission gives its error and a mined submission gives its hash |
| VaultClient.RatingVaultHook.SubmitRating | ratevault-frontend/hooks/useRatingVault.tsx:102-142 | without instance or signer it fails at once with "FHEVM instance or signer not available" and nothing is encrypted; otherwise the loop adds one value per score in order, the result is SubmitOutcome, and it ends not loading with the error set exactly after a failure |
| VaultClient.RatingVaultHook.CloseRating | ratevault-frontend/hooks/useRatingVault.tsx:200-220 | the transaction is sent through the signer; no deployment or a failed call sets the error; it ends not loading |
| VaultClient.RatingVaultHook.GetRating | ratevault-frontend/hooks/useRatingVault.tsx:144-156 | the call's campaign, or null when the registry is not deployed or the call fails |
| VaultClient.RatingVaultHook.GetRatings | ratevault-frontend/hooks/useRatingVault.tsx:158-170 | the call's campaigns, or [] on any failure |
| VaultClient.RatingVaultHook.GetMyRatedRatings | ratevault-frontend/hooks/useRatingVault.tsx:172-184 | the call's ids, or [] on any failure |
| VaultClient.RatingVaultHook.GetMyCreatedRatings | ratevault-frontend/hooks/useRatingVault.tsx:186-198 | the call's ids, or [] on any failure |
| VaultClient.RatingVaultHook.GetRatingCount | ratevault-frontend/hooks/useRatingVault.tsx:222-231 | the call's count, or 0 on any failure |
| VaultClient.PairHandles | ratevault-frontend/hooks/useRatingVault.tsx:278-281 | every handle is paired with the contract, in order |
| VaultClient.NumberOf | ratevault-frontend/hooks/useRatingVault.tsx:300-301 | a number exactly when the record answers the handle |
| VaultClient.ReadBack | ratevault-frontend/hooks/useRatingVault.tsx:299-302 | one value per handle, in order, each looked up by its own handle |
| VaultClient.ReadBackConcat | ratevault-frontend/hooks/useRatingVault.tsx:299-302 | reading back a concatenation is concatenating the read-backs |
| VaultClient.ReadBackComplete | ratevault-frontend/hooks/useRatingVault.tsx:299-302 | every value is a number exactly when every handle is answered |
| VaultClient.DecryptCallFor | ratevault-frontend/hooks/useRatingVault.tsx:285-294 | `userDecrypt` gets the paired handles and the grant's keys, signature, contracts, user, start and duration |
| VaultClient.DecryptWithGrant | ratevault-frontend/hooks/useRatingVault.tsx:265-302 | the store is left as loadOrSign leaves it; no grant gives the signature error; with a grant, a failed `userDecrypt` gives its error and a successful one gives the values read back handle by handle in the handles' order (`ReadBack`); a result exists only through such a grant and decryption |
| VaultClient.RatingVaultHook.DecryptHandles | ratevault-frontend/hooks/useRatingVault.tsx:265-302 | the result and the new store are those of DecryptWithGrant |
| VaultClient.MyRatingOutcome | ratevault-frontend/hooks/useRatingVault.tsx:244-304 | no deployment fails with the not-deployed message; an empty score list fails with "You haven't rated this yet" and leaves the store alone; stored handles go to `DecryptWithGrant` for the contract, and a result is those handles read back in order |
| VaultClient.RatingVaultHook.DecryptMyRating | ratevault-frontend/hooks/useRatingVault.tsx:233-315 | a missing instance or signer fails before any state changes; otherwise the result and store are MyRatingOutcome's, and it ends not loading with the error set exactly after a failure |
| VaultClient.IsCreatorIgnoresCase | ratevault-frontend/hooks/useRatingVault.tsx:337 | the creator test is symmetric and ignores case on either side |
| VaultClient.StatisticsOutcome | ratevault-frontend/hooks/useRatingVault.tsx:328-394 | no deployment fails with the not-deployed message; a caller who is not the creator (ignoring case) is rejected and the store is unchanged; a result means the caller is the creator, totals exist and they are read back in order; a creator with totals gets exactly `DecryptWithGrant` over them |
| VaultClient.RatingVaultHook.DecryptAggregatedScores | ratevault-frontend/hooks/useRatingVault.tsx:317-405 | a missing instance or signer fails before any state changes; otherwise the result and store are StatisticsOutcome's, and it ends not loading with the error set exactly after a failure |
| VaultClient.ErrorAfter | ratevault-frontend/hooks/useRatingVault.tsx:306-311 | no error exactly after success; otherwise the message or the fallback |

## Left out

- Cryptography: encryption, input proofs, `userDecrypt`, key generation and EIP-712 signing are oracles that succeed or fail. Proof verification in the contract is an oracle of (contract, sender, handles, proof).
- The contract's Solidity source is not part of this model. Only behaviour its tests assert or its client relies on is modelled, so there is no ACL and no revert text for the reasons the tests do not show.
- JSON: `localStorage` values are kept as the records they were written from. A value that is not a grant record stands for one that fails to parse or to construct.
- Asynchrony: every `await` is sequential. So the race between concurrent `loadOrSign` calls and the reordering of React state updates are not modelled.
- JsSort.Sort: `sort()` on the constructor's input array works in place. The model returns a sorted copy, so aliasing of the caller's array is not captured.
- JsSort.LessEq: it compares characters as code points, while JavaScript compares UTF-16 code units. The two differ only above U+FFFF, which never occurs in hexadecimal addresses.
- JsString.ToLower: it lowers ASCII letters only, which is all that addresses and client versions hold.
- `handleChainChanged` and `handleDisconnect` are not modelled. The first re-reads the chain and reloads the page; the second only calls `disconnectWallet`, which is modelled.
- Wallet listeners are not modelled: adding and removing `accountsChanged`, `chainChanged` and `disconnect` handlers.
- Wallet.WalletSession.HandleAccountsChanged: it uses the current state. The source's handler reads `walletState` captured when `connectWallet` was created, which is not modelled.
- The `connectWallet` alert on error code 4001, `window.location.reload()`, `alert` and `router.push` in the pages are left out; HandleAccountsChanged returns `reload` instead.
- Wallet.WalletSession.Reconnect: the silent connect reuses the reply given as a parameter. It does not issue a second `eth_accounts` request.
- Wallet.StoredText: values under the `wallet.*` keys are always text, so a non-text value counts as absent.
- The remaining adapter methods are passthroughs: `getPublicKey`, `generateKeypair`, `userDecrypt`, `createEIP712`, `add64` and `addBool`.
- The return value of `add32`, `add64` and `addBool` is left out, because those methods return the adapter rather than the input. The hook calls `add32` once per score without chaining.
- `""` stands for an error without a message. A wallet whose `getAddress` rejects is modelled with that empty message.
- VaultClient.NumberOf: a decrypted value is an integer or a boolean. Decrypted strings and `Number()`'s limited precision are not modelled.
- VaultClient.RatingVaultHook.DecryptHandles: the repeated "Contract address not found" check in both decryptions is left out. It cannot fail once `getContract` has succeeded.
- RatingVault.Vault.SubmitRating: scores are integers. The 32-bit range is checked only by the contract's input verifier oracle.
- CreateForm.CreatePage.UpdateDimension: requires an index in range. The editor only binds positions it displays, so an out-of-range index never occurs, although JavaScript would grow the array for one.
- CreateForm.FormErrors: phrased with `Blank`, which is whitespace only. CreateForm.FormValidMeaning proves `Blank` is the same as an empty `trim()`.
- CreateForm.DeadlineSeconds: the date parser `new Date(s).getTime()` is a total parameter, because the field is a `datetime-local` input. An invalid date (NaN) is not modelled.
- The score fields' `Number(e.target.value)` is taken to give an integer.
- The deployment table `RatingVaultAddresses` (the `abi/` directory) is not part of this model. It is the `deployments` parameter of the hook.
- VaultClient.RatingVaultHook.GetRating and the other getters: read calls go through the provider and never through the signer.
- FhevmHook.InstanceHook.Initialize: a chain id of NaN is not modelled.
- The relayer SDK's `SepoliaConfig` fields and the mock's `JsonRpcProvider` objects are not modelled.
- The script loader `loader.ts`, the pages' rendering and RatingStats' float averages are not modelled.
