# Drakesmith forging logic in Dafny

Drakesmith is a web front end for an NFT "forging" game on Polygon. A wallet
owner forges three basic tokens (#0, #1, #2). Tokens #3 to #6 are forged from
combinations of the basic ones, and owned tokens can be burned. The front end:
- reads the owner's tokens from an indexer;
- overlays them onto a fixed seven-token catalog;
- decides which forge buttons are enabled;
- sends contract transactions behind a single "processing" flag;
- turns wallet and chain errors into readable toasts.

This project models that logic and proves what it promises:

- `wrappers.dfy` (`Wrappers`): `Option` and `Result`.
- `js_string.dfy` (`JsString`): the JavaScript string behaviour the source relies on:
  - `parseInt` with no radix: leading whitespace, a sign, the `0x` prefix, and the longest run of digits, with NaN as `None`;
  - the `parseInt(x) || 1` idiom;
  - `toLowerCase` on ASCII;
  - `includes`;
  - `slice` with negative indices;
  - the truthiness of an optional string, used for the wallet address in `contract.ts` and `profile-header.tsx`.
- `nfts.dfy` (`Nfts`), for `lib/utils/nft.ts`:
  - the catalog `PREDEFINED_NFTS`;
  - the case-insensitive contract filter;
  - the per-token `Map` and the snapshot `processNFTs` returns;
  - the total from `calculateTotalCount`.

  `ProcessNfts` is the imperative pass of the source: a loop that fills the map and a running count. It is proved equal to the specification functions `Snapshot` and `TotalCount`.
- `contract.dfy` (`Contract`), for `lib/utils/contract.ts`:
  - the error classifier `parseErrorMessage`;
  - the timeout rewriting in `waitForTransaction`;
  - `handleTransaction` as a function `Transact`, from the wallet state and the outcomes of the action and of the confirmation race to the effect;
  - the `mintToken` switch;
  - the plans of `mintToken`, `burnToken` and `mintAllFreeTokens`;
  - the class `Transactions`, the hook's state (`address`, `connector`, `isProcessing`) plus a log of the toasts shown, the entry points invoked and the `refreshData` calls. Its methods are proved against `Transact`.
- `gallery.dfy` (`Gallery`), for `components/nft-gallery.tsx`:
  - `TOKEN_REQUIREMENTS`, `hasRequiredTokens` (with `find` by parsed token id), `isAnyOperationInProgress`, the forge-button rule and the burn-amount clamp;
  - the class `GalleryState`, which holds the per-token forging flags, the basic-set flag and the burn dialog. Its handlers call the contract actions of a `Contract.Transactions`.
- `profile.dfy` (`Profile`), for `components/profile-header.tsx`: `truncateAddress`, the "No address" fallback, and the address guards of the copy and OpenSea buttons.

Outside effects become parameters:
- The indexer response is an input.
- How the wallet call goes (`Submission`) and how the race between `tx.wait()` and the 20-second timer settles (`Confirmation`) are inputs.
- Whether `connector.getProvider()` yields a provider is an input.
- Toasts, invoked entry points and `refreshData` calls are recorded, not performed.

Facts about the source worth knowing when reading the model:
- `lib/utils/nft.ts` filters on `0xF0a0009b94e7E6071cC42b1eAA6F1B4424282b39`. `lib/utils/contract.ts` sends transactions to a different address, `0x77ca1Db200df9A8BAFC993b77E0feFBE7D495463`. Both constants are kept as written.
- `processNFTs` keeps a running `ownedNFTsCount` and never returns it. `ProcessNfts` returns it, to show it always equals `calculateTotalCount`.
- The message substituted for a timed-out confirmation says "timed out", not "timeout". The classifier therefore reports it with the generic text (`Contract.TimedOutIsGeneric`).
- `handleBurn` closes the dialog whenever `burnToken` does not throw. That includes the cases where nothing was sent: no provider, no wallet, or a transaction already in progress.

## Model

| member | source | states |
|---|---|---|
| JsString.ParseIntOrOne | lib/utils/nft.ts:137 | `parseInt(s) \|\| 1` is never 0: NaN and 0 become 1, every other parsed value is kept |
| JsString.ParseIntReadsNumeral | lib/utils/nft.ts:137 | `parseInt` of an integer's numeral followed by a non-digit reads back that integer (a zero followed by `x` excepted) |
| JsString.ParseIntOfIntToString | components/nft-gallery.tsx:148 | `parseInt` inverts the decimal rendering of an integer |
| JsString.ParseIntSkipsWhiteSpace | components/nft-gallery.tsx:499 | leading whitespace does not change what `parseInt` reads |
| JsString.ParseIntWithoutDigits | components/nft-gallery.tsx:499 | text whose first non-blank character is not a sign or digit parses to NaN |
| JsString.ToLowerIgnoresCase | lib/utils/nft.ts:135 | lower-casing forgets case: equal after upper-casing first, and idempotent |
| Nfts.CatalogTokenIds | lib/utils/nft.ts:28-106 | the catalog has exactly seven entries with token ids "0" to "6" in order |
| Nfts.CatalogTokenIdsDistinct | lib/utils/nft.ts:28-106 | catalog token ids are pairwise distinct |
| Nfts.ForContract | lib/utils/nft.ts:135 | an item survives the filter iff its address equals the contract address ignoring case |
| Nfts.ForContractAppend | lib/utils/nft.ts:155-156 | filtering distributes over concatenation, keeping report order |
| Nfts.QuantityMapSize | lib/utils/nft.ts:130-139 | the map has at most one entry per filtered item: a repeated token id shares its entry (keys and values: the three lemmas below) |
| Nfts.QuantityMapKeys | lib/utils/nft.ts:136-138 | a token id is a key of the map iff some filtered item carries exactly that id |
| Nfts.QuantityMapLastWins | lib/utils/nft.ts:136-139 | the map holds the quantity of the last item with a given token id |
| Nfts.QuantityMapNonZero | lib/utils/nft.ts:137-138 | no stored quantity is zero |
| Nfts.Overlay | lib/utils/nft.ts:144-148 | an output entry copies its catalog entry except `owned`/`quantity`, and is owned iff its id is in the map |
| Nfts.Snapshot | lib/utils/nft.ts:144-148 | the snapshot has exactly 7 entries, in catalog order, each equal to its catalog entry except for ownership |
| Nfts.SnapshotOwnedIff | lib/utils/nft.ts:133-146 | catalog entry k is owned iff some filtered report item has exactly its token id string |
| Nfts.SnapshotQuantity | lib/utils/nft.ts:136-147 | an owned entry's quantity is `parseInt(balance) \|\| 1` of the last item reporting it |
| Nfts.SnapshotUnownedQuantity | lib/utils/nft.ts:147 | an unowned entry keeps quantity 1 |
| Nfts.TotalCount | lib/utils/nft.ts:152-153 | the total is 0 when the data or its `ownedNfts` is absent |
| Nfts.SumQuantitiesAtLeastCount | lib/utils/nft.ts:155-159 | with no negative balance, every item counts at least once: the total is at least the number of filtered items |
| Nfts.SumQuantitiesAppend | lib/utils/nft.ts:157-159 | the total is additive over report segments |
| Nfts.UnknownTokenCountsOnlyInTotal | lib/utils/nft.ts:133-159 | an item for a token id outside the catalog leaves the snapshot unchanged but adds its quantity to the total |
| Nfts.DuplicateTokenOverwrites | lib/utils/nft.ts:136-159 | a repeated token id replaces the snapshot quantity while the total counts both items |
| Nfts.ExampleReport | lib/utils/nft.ts:128-159 | a two-item report (one address in lower case) gives the expected owned flags, quantities and total 3 |
| Nfts.ProcessNfts | lib/utils/nft.ts:128-149 | the map-filling loop returns exactly the snapshot, and its running count equals `calculateTotalCount` |
| Contract.ParseErrorMessage | lib/utils/contract.ts:28-77 | the text is always one of the nine category texts, and it is the rejection text iff the code is 4001 or 'ACTION_REJECTED' |
| Contract.ParseErrorMessageFirstRule | lib/utils/contract.ts:28-77 | the classifier answers with the text of the first rule, in source order, whose test accepts the error |
| Contract.RejectionIgnoresMessage | lib/utils/contract.ts:30-32 | code 4001 or 'ACTION_REJECTED' gives the rejection text whatever the message |
| Contract.CooldownWins | lib/utils/contract.ts:37-40 | 'wait for the cooldown' in any letter case gives the cooldown text, whatever else the message contains |
| Contract.NestedCooldownTestNeverSucceeds | lib/utils/contract.ts:48-53 | the cooldown test inside the 'execution reverted' branch can never succeed |
| Contract.LaterRulesAreCaseSensitive | lib/utils/contract.ts:37-77 | the tests after the cooldown one are case-sensitive: a non-rejection message with no lower-case letter ("NONCE", "NETWORK ERROR") is the cooldown text if it says the cooldown phrase in any case, and the generic text otherwise |
| Contract.RewriteTimeout | lib/utils/contract.ts:104-109 | only an error whose message is exactly 'Transaction timeout' is replaced; any other is rethrown unchanged |
| Contract.RewriteTimeoutIdempotent | lib/utils/contract.ts:104-109 | rewriting twice is rewriting once |
| Contract.WaitForTransaction | lib/utils/contract.ts:93-110 | it succeeds, with the receipt, iff `tx.wait()` resolves first; a `tx.wait()` rejection is rethrown through the timeout rewrite; a timer win throws the 20-second message |
| Contract.TimedOutFiresNothing | lib/utils/contract.ts:38-73 | no specific classifier rule accepts the substituted timeout message |
| Contract.TimedOutIsGeneric | lib/utils/contract.ts:106 | the substituted timeout message is classified with the generic text, not the timeout text |
| Contract.MintEntryPoint | lib/utils/contract.ts:174-183 | ids 0..6 map to `mintTokenN`; any other id, NaN included, is an error naming the id |
| Contract.MintTargetsDeclared | lib/utils/contract.ts:9-21 | every entry point the switch can choose is declared in the ABI |
| Contract.Transact | lib/utils/contract.ts:112-163 | guards, then Submitted and Success toasts and one refresh exactly when the call is submitted and confirmed; every other call past the guards throws, with the error toast unless rejected |
| Contract.RejectionIsSilent | lib/utils/contract.ts:149-159 | a declined transaction is rethrown with no destructive toast |
| Contract.TimeoutOutcome | lib/utils/contract.ts:140-159 | a timed-out confirmation shows Submitted then the generic error, refreshes nothing and throws the substituted message |
| Contract.MintPlan | lib/utils/contract.ts:165-190 | no provider returns silently; an id outside 0..6 throws; otherwise `mintTokenN` runs |
| Contract.BurnPlan | lib/utils/contract.ts:192-205 | no provider returns silently; with a provider, `burnWithoutForge(tokenId, amount)` always runs |
| Contract.MintAllPlan | lib/utils/contract.ts:207-220 | no provider returns silently; with a provider, `mintAllFreeToken` always runs |
| Contract.Settle | lib/utils/contract.ts:165-220 | a skipped or aborted action invokes nothing, shows nothing and refreshes nothing |
| Contract.UnknownMintIdTouchesNothing | lib/utils/contract.ts:174-183 | an unknown id throws before any transaction, toast or refresh |
| Contract.Transactions.constructor | lib/utils/contract.ts:89-91 | the hook starts not processing with an empty log |
| Contract.Transactions.HandleTransaction | lib/utils/contract.ts:112-163 | the log grows by exactly the effect `Transact` gives, the result is its result, and `isProcessing` is back to its value on entry |
| Contract.Transactions.MintToken | lib/utils/contract.ts:165-190 | the same for the mint plan |
| Contract.Transactions.BurnToken | lib/utils/contract.ts:192-205 | the same for the burn plan |
| Contract.Transactions.MintAllFreeTokens | lib/utils/contract.ts:207-220 | the same for the basic-set plan |
| Gallery.FindByNumber | components/nft-gallery.tsx:148 | the result is the first entry whose token id parses to n, and None iff there is none |
| Gallery.HasRequiredTokensFirstMatch | components/nft-gallery.tsx:143-151 | a listed token is forgeable iff, for every required number, the first entry whose token id parses to it exists and is owned |
| Gallery.UnlistedAlwaysForgeable | components/nft-gallery.tsx:143-145 | ids without requirements ("0", "1", "2" and unknown ids) are always forgeable |
| Gallery.SnapshotForgeable | components/nft-gallery.tsx:143-150 | on the snapshot, '3'..'6' are forgeable iff every required token is owned |
| Gallery.ForgeableFromReport | components/nft-gallery.tsx:143-150 | token 6 is forgeable iff the filtered report mentions "0", "1" and "2" |
| Gallery.HasRequiredTokensMonotone | components/nft-gallery.tsx:147-150 | marking more entries owned never makes a forgeable token unforgeable |
| Gallery.AnyOperationInProgress | components/nft-gallery.tsx:74-76 | some operation is in progress iff a transaction runs, the basic set is forging, or some token's forge flag is raised |
| Gallery.ForgeFlagLifecycle | components/nft-gallery.tsx:74-76 | a raised forge flag blocks every operation; clearing it leaves only the other flags blocking |
| Gallery.ForgeDisabled | components/nft-gallery.tsx:423 | a forge button is disabled iff something is in progress or the token is not forgeable; the `requirements &&` guard changes nothing |
| Gallery.ForgeDisabledOnSnapshot | components/nft-gallery.tsx:423 | a forge button is disabled iff something is in progress or a required token is not owned |
| Gallery.ClampBurnAmount | components/nft-gallery.tsx:499 | the stored amount is in [1, quantity] when quantity is at least 1; NaN, 0 and negative values give 1 (quantity itself when it is below 1); a valid value is kept; too much gives quantity |
| Gallery.GalleryState.constructor | components/nft-gallery.tsx:50-55 | no flags set, amount 1, no selection, dialog closed |
| Gallery.GalleryState.HandleForge | components/nft-gallery.tsx:92-102 | the token's flag ends false with other flags unchanged, and the contract log records the mint |
| Gallery.GalleryState.HandleForgeAll | components/nft-gallery.tsx:104-113 | the basic-set flag ends false and the contract log records the basic-set mint |
| Gallery.GalleryState.HandleBurn | components/nft-gallery.tsx:115-125 | the dialog is cleared only when `burnToken` returns; on a throw, dialog, selection and amount are unchanged |
| Gallery.GalleryState.HandleBurnClick | components/nft-gallery.tsx:127-131 | the token is selected, the amount is 1 and the dialog is open |
| Gallery.GalleryState.HandleDialogClose | components/nft-gallery.tsx:133-137 | the dialog is closed, the selection dropped and the amount 1 |
| Gallery.GalleryState.OnBurnAmountChange | components/nft-gallery.tsx:499 | the stored amount is the clamp of the input, within [1, quantity] for a positive quantity |
| Profile.TruncateAddress | components/profile-header.tsx:33-35 | the first min(6, len) characters, "...", and the last min(4, len) characters |
| Profile.TruncateFullAddress | components/profile-header.tsx:34 | a 42-character address gives 13 characters: its first 6, "...", its last 4 |
| Profile.TruncateShortAddress | components/profile-header.tsx:34 | an address of at most 4 characters is not padded; it appears twice |
| Profile.DisplayAddress | components/profile-header.tsx:86 | no address (absent or empty) shows "No address"; otherwise the truncation |
| Profile.DisplayDistinguishesConnected | components/profile-header.tsx:86 | a connected address never displays as "No address" |
| Profile.CopyToClipboard | components/profile-header.tsx:37-45 | without an address nothing is copied or shown; with one, the address is copied and "Address copied" is shown |
| Profile.OpenOpensea | components/profile-header.tsx:47-51 | without an address nothing opens; with one, a URL ending in the address opens in "_blank" |

## Left out

- Fetching the indexer report (SWR, its caching and deduplication, the HTTP request): the report is an input.
- ethers provider, signer and contract construction, and the contract calls: their outcomes are parameters.
- A rejected `connector.getProvider()` is not modelled; only a provider that is found or not found is.
- The timer and `Promise.race` timing: only which side wins is modelled.
- Rendering, styling, tooltips, skeletons and animations, including the badge colours and the `totalCount || filteredNFTs.length` counter.
- The MATIC balance display, which is floating point.
- components/forge-guide.tsx: its recipe table only repeats the requirement table for display.
- Clipboard writes and `window.open`: only what they would write or open is returned.
- Contract.Transactions.HandleTransaction: the `isProcessing` guard reads the flag React rendered last, not the one just set. Overlapping calls in one render can both pass the guard. The model runs calls one after another.
- The gallery's `filteredNFTs` is `[]` before mounting; the predicates take the displayed list as a parameter.
- JsString.ToLower: only ASCII letters are mapped; JavaScript also maps other Unicode letters.
- JsString.ParseInt: numbers are unbounded integers; JavaScript loses precision above 2^53.
- JsString.Slice and Profile.TruncateAddress: positions count Unicode scalar values, JavaScript counts UTF-16 code units. They differ only on characters outside the Basic Multilingual Plane, which a hexadecimal address never contains.
- JsString.IntToString: always plain decimal digits; JavaScript switches to exponent notation at 1e21 and above, far beyond any token id or amount used here.
- Gallery.HasRequiredTokens: the table is a map with four keys. In JavaScript, ids such as "constructor" would hit `Object.prototype` and throw; the catalog never produces such ids.
- Nfts.ForContract: report items always carry a contract address. A missing `contract` would throw in the source.
- Contract.ParseErrorMessage: errors are objects with a code and a message. A thrown non-object, or an absent message, is read as a code-less error with message "".
