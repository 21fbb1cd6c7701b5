# Octopus appchain block ingestion, modelled in Dafny

This project models the per-block ingestion core of the SubQuery indexer for an Octopus
appchain (the `testnet-subql-uniqueone` mappings). For each block, the indexer:

- correlates the block's flat event list with its extrinsics (`wrapExtrinsics`);
- turns each extrinsic into records (`handleExtrinsic`): the extrinsic, its calls, one
  generic event record per correlated event, native `balances.Transfer` records, and
  decoded `octopusBridge` transfers in both directions (`bridgeEvents.ts`);
- collects the accounts each extrinsic touches;
- in `handleBlock`, numbers events block-wide, concatenates the per-extrinsic lists in
  extrinsic order, merges the account maps, and collects upward messages;
- saves the block and reconciles every touched account against its fetched chain state.
  A stored account is refreshed in place (`tryUpdateAccount`); a new one is created
  (`handleAccount`). The code means to save a refreshed account only when it changed, but as
  written its `isEqual` test is never true, so it saves every stored account it touches (see
  Findings). `Accounts.TryUpdateAccount` follows the intended save-only-if-changed rule, and
  `Accounts.AsWrittenAlwaysSaves` shows the code's behaviour.
- bulk-creates everything else.

Modules, one concern each:

- `Results`: Option and Result, and `AllOk`, the "first thrown error ends the `map`" fold.
- `Text`: the decimal text of numbers. It also holds `RecordId`, the `"{blockNumber}-{index}"` identifier shared by extrinsics, events and native transfers, with a parser that is its inverse.
- `Codec`: decoded event arguments and the JavaScript conversions `toString`, `BigInt(...)`, `Number(...)` and `toBigInt()`. A conversion that would throw returns an error.
- `Types`: chain inputs (block, extrinsic, event record, phase) and the indexer's entities.
- `BridgeEvents`: `handleAppchainToNearTransfer` and `handleNearToAppchainTransfer`.
- `EventHandlers`: `handleEvent` and `handleSystemTokenTransfer`.
- `Extrinsics`: `wrapExtrinsics` and `handleExtrinsic`. The event `forEach` is a loop method proved equal to the specification function `ExtractEvents`.
- `Accounts`: account records, `handleAccount` and `tryUpdateAccount`. Also the `Store` class (saved accounts plus the ordered log of writes) and the `Account` entity class, whose fields `tryUpdateAccount` overwrites in place.
- `MappingHandlers`: `handleBlock`, with its event-index accumulation, concatenations, account-map merge and account reconciliation loop.

The chain query `getAccount`, `handleCalls` and `handleUpwardMessages` are function
parameters. Persistence is the `Store` class: `Account.get`, `save` and `store.bulkCreate`
act on its account map and append to its write log.

## Model

| member | source | states |
|---|---|---|
| Text.Decimal | src/mappings/extrinsics.ts:50 | the text of a number in an id is a non-empty run of decimal digits |
| Text.DecimalRoundTrip | src/mappings/extrinsics.ts:50 | reading the decimal text back gives the number |
| Text.DecimalInjective | src/mappings/extrinsics.ts:50 | different numbers have different decimal texts |
| Text.RecordIdRoundTrip | src/mappings/extrinsics.ts:50 | an id `"{blockNumber}-{idx}"` splits back into exactly that block number and index |
| Text.RecordIdInjective | src/mappings/mappingHandlers.ts:80 | two ids coincide only when block number and index both coincide |
| Codec.BigIntOfInteger | src/mappings/bridgeEvents.ts:23 | `BigInt(x.toString())` and `Number(x.toString())` of an integer codec give that integer and do not throw |
| Results.AllOkValues | src/mappings/mappingHandlers.ts:32-36 | a `map` whose callback may throw succeeds iff every call succeeds, and then yields each call's value in order |
| BridgeEvents.StripBackslashes | src/mappings/bridgeEvents.ts:17 | the sanitised sequence has no backslash, is no longer than the input, and keeps only input characters |
| BridgeEvents.StripBackslashesKeepsClean | src/mappings/bridgeEvents.ts:17 | a sequence without backslashes is used as the id unchanged |
| BridgeEvents.StripBackslashesIdempotent | src/mappings/bridgeEvents.ts:17 | sanitising twice is sanitising once |
| BridgeEvents.StripBackslashesAppend | src/mappings/bridgeEvents.ts:17 | sanitising works piecewise, so the kept characters stay in order |
| BridgeEvents.StripBackslashesExample | src/mappings/bridgeEvents.ts:17 | `12\34` becomes `1234` |
| BridgeEvents.HandleAppchainToNearTransfer | src/mappings/bridgeEvents.ts:7-45 | no human `sequence` throws. The id is the sanitised sequence, timestamp and extrinsicId are always set, and `type` is the method exactly for the three outbound methods. |
| BridgeEvents.HandleNearToAppchainTransfer | src/mappings/bridgeEvents.ts:47-85 | the same for the three inbound methods |
| BridgeEvents.LockedLayout | src/mappings/bridgeEvents.ts:18-24 | `Locked` reads `[sender, receiver, amount, fee, sequence]` into senderId, receiver, amount and sequence. The fee is not stored. It decodes iff the five positions exist and amount and sequence are decimal. |
| BridgeEvents.Nep141BurnedLayout | src/mappings/bridgeEvents.ts:25-32 | `Nep141Burned` reads `[assetId, sender, receiver, amount, fee, sequence]` and also sets assetId |
| BridgeEvents.NonfungibleLockedLayout | src/mappings/bridgeEvents.ts:33-40 | `NonfungibleLocked` reads `[collection, item, sender, receiver, fee, sequence]`, sets collection and item, and sets no amount |
| BridgeEvents.UnlockedLayout | src/mappings/bridgeEvents.ts:58-64 | `Unlocked` reads `[sender, receiver, amount, sequence]`. The NEAR sender goes to `sender`, the local receiver to `receiverId`. |
| BridgeEvents.Nep141MintedLayout | src/mappings/bridgeEvents.ts:65-72 | `Nep141Minted` reads `[assetId, sender, receiver, amount, sequence]` |
| BridgeEvents.NonfungibleUnlockedLayout | src/mappings/bridgeEvents.ts:73-80 | `NonfungibleUnlocked` reads `[collection, item, sender, receiver, sequence]`, with no amount |
| BridgeEvents.UnrecognisedOutboundSetsIdsOnly | src/mappings/bridgeEvents.ts:18-43 | any other method sets only id, timestamp and extrinsicId |
| BridgeEvents.UnrecognisedInboundSetsIdsOnly | src/mappings/bridgeEvents.ts:58-83 | any other method sets only id, timestamp and extrinsicId |
| BridgeEvents.LockedExample | src/mappings/bridgeEvents.ts:16-24 | a concrete `Locked` event whose human sequence is `12\34` decodes to the record with id `1234` |
| EventHandlers.HandleEvent | src/mappings/mappingHandlers.ts:73-90 | the id is `"{blockNumber}-{idx}"`. Index, section, method and the JSON of the event's human form are copied from the event. blockId is the block hash and extrinsicId is the argument. |
| EventHandlers.HandleEventId | src/mappings/mappingHandlers.ts:80 | the event id reads back as the block number and the given index |
| EventHandlers.HandleSystemTokenTransfer | src/mappings/mappingHandlers.ts:92-112 | decodes iff there are three arguments and the third is a balance. fromId, toId and amount come from positions 0, 1 and 2. The id equals the event record's id for the same event. |
| Extrinsics.EventsOf | src/mappings/extrinsics.ts:22-24 | the filtered events are block events applied during that extrinsic |
| Extrinsics.EventsOfAppend | src/mappings/extrinsics.ts:22-24 | the filter distributes over concatenation, so relative order is kept |
| Extrinsics.EventsOfCount | src/mappings/extrinsics.ts:22-24 | every occurrence of an event applied during extrinsic i is kept, and nothing else |
| Extrinsics.EventsOfMembership | src/mappings/extrinsics.ts:23 | an event is in extrinsic i's list iff it is a block event whose phase is `ApplyExtrinsic(i)` |
| Extrinsics.FindSuccessIndex | src/mappings/extrinsics.ts:31 | `findIndex`: the first `ExtrinsicSuccess` position, or -1 when there is none |
| Extrinsics.WrapExtrinsics | src/mappings/extrinsics.ts:20-34 | one wrapper per extrinsic, in block order, with `idx` its position and its filtered events. `success` holds iff some correlated event is `ExtrinsicSuccess`, so no events means false. |
| Extrinsics.WrappersPartitionEvents | src/mappings/extrinsics.ts:21-24 | initialization and finalization events belong to no wrapper, no event belongs to two, and an event applied in extrinsic i belongs to wrapper i |
| Extrinsics.ExtractOne | src/mappings/extrinsics.ts:72-84 | one step never throws for an event no detector matches, and for a routed event it succeeds iff that event's handler decodes it. A successful step gives exactly one event record and adds exactly the handler's decode: one native transfer for `balances.Transfer`, one outbound transfer for the three outbound bridge methods, one inbound transfer for the three inbound ones. |
| Extrinsics.CollectFirstError | src/mappings/extrinsics.ts:71-85 | a failed `forEach` failed with the error of its first failing step |
| Extrinsics.ExtractSucceeds | src/mappings/extrinsics.ts:71-85 | an extrinsic's events decode iff each event's step decodes |
| Extrinsics.ExtractFirstError | src/mappings/extrinsics.ts:71-85 | the error thrown is that of the first event that fails |
| Extrinsics.ExtractNumbering | src/mappings/extrinsics.ts:71-73 | one event record per correlated event, the k-th built with index `startEvtIdx + k` |
| Extrinsics.ExtractTransfers | src/mappings/extrinsics.ts:72-84 | extraction succeeds iff every routed event decodes with its handler, and then the native, outbound and inbound lists are exactly those decodes, in event order |
| Extrinsics.ExtractCounts | src/mappings/extrinsics.ts:74-84 | the numbers of native, outbound and inbound transfers equal the numbers of events routed to each |
| Extrinsics.ExtractCarriesExtrinsicId | src/mappings/extrinsics.ts:73-82 | every event record and transfer carries the extrinsic id |
| Extrinsics.TransferAccountsMembers | src/mappings/extrinsics.ts:90-93 | the native transfers touch exactly their senders and recipients |
| Extrinsics.SenderAccountsMembers | src/mappings/extrinsics.ts:95-98 | the outbound transfers touch exactly their senders |
| Extrinsics.ReceiverAccountsMembers | src/mappings/extrinsics.ts:100-102 | the inbound transfers touch exactly their local receivers |
| Extrinsics.NewExtrinsic | src/mappings/extrinsics.ts:50-63 | the extrinsic record takes its success flag from the wrapper, the block's timestamp, and the block hash as blockId. Hash, section, method, args, signer, nonce, tip, signature and isSigned come from the extrinsic. |
| Extrinsics.ExtrinsicOutputFacts | src/mappings/extrinsics.ts:36-113 | handleExtrinsic succeeds iff its events decode. Then the extrinsic id is `"{n}-{idx}"`, the k-th event id is `"{n}-{startEvtIdx+k}"`, every event points at the extrinsic, and the account map holds the signer with every value null. |
| Extrinsics.CollectAccountIds | src/mappings/extrinsics.ts:87-102 | the account map's keys are exactly the signer, both parties of each native transfer, each outbound sender and each inbound receiver, all mapped to null |
| Extrinsics.ClassifyEvent | src/mappings/extrinsics.ts:72-84 | the `forEach` callback's independent `if`s compute exactly `ExtractOne` |
| Extrinsics.ExtractEventsLoop | src/mappings/extrinsics.ts:67-85 | the push loop computes exactly `ExtractEvents`, the fold of the steps that stops at the first throw |
| Extrinsics.HandleExtrinsic | src/mappings/extrinsics.ts:36-113 | the imperative handler returns exactly `ExtrinsicOutputOf`, whose properties `ExtrinsicOutputFacts` states |
| Accounts.NonceNumber | src/mappings/accounts.ts:18 | `Number(nonce.toString())` is the nonce itself |
| Accounts.HandleAccount | src/mappings/accounts.ts:5-25 | the new record has the account id, the block timestamp as createdAt, and the nonce and four balances from the fetched state |
| Accounts.HandleAccountIgnoresCreator | src/mappings/accounts.ts:5-24 | the creator id has no effect on the record |
| Accounts.Updated | src/mappings/accounts.ts:38-42 | the refreshed record holds the fetched state, keeps id and createdAt, and equals the old record iff the old record already held that state |
| Accounts.UpdatedIdempotent | src/mappings/accounts.ts:44-46 | a second refresh against the same state changes nothing, so it issues no save |
| Accounts.UpdatedAsWritten | src/mappings/accounts.ts:38-42 | as written, the refreshed record's nonce is the codec object, and id and createdAt are kept |
| Accounts.AsWrittenAlwaysSaves | src/mappings/accounts.ts:38-46 | when the fetched state equals the stored one, the intended refresh is a no-op but the as-written one always differs |
| Accounts.PutAll | src/mappings/mappingHandlers.ts:63 | bulk-creating accounts adds exactly their ids to the stored ids |
| Accounts.PutAllKeepsIds | src/mappings/mappingHandlers.ts:63 | bulk creation keeps every account stored under its own id |
| Accounts.Store.GetAccount | src/mappings/mappingHandlers.ts:54 | `Account.get` gives a fresh entity holding the stored record, or null iff no account has that id |
| Accounts.Store.SaveAccount | src/mappings/accounts.ts:45 | a save stores the record under its id and logs it |
| Accounts.Store.CreateAccounts | src/mappings/mappingHandlers.ts:63 | `bulkCreate("Account", ...)` stores every record and logs one write |
| Accounts.Store.Issue | src/mappings/mappingHandlers.ts:64-70 | any other save or bulk create leaves the accounts alone and logs one write |
| Accounts.Account.Save | src/mappings/accounts.ts:45 | `account.save()` writes the entity's current fields |
| Accounts.TryUpdateAccount | src/mappings/accounts.ts:27-47 | the entity's nonce and balances become the fetched state, and id and createdAt are kept. A save is issued iff the snapshot did not already hold that state; otherwise the store is untouched. |
| MappingHandlers.UpwardMessagesAppend | src/mappings/mappingHandlers.ts:17-22 | upward messages are collected piecewise in block event order |
| MappingHandlers.NoCommittedNoMessages | src/mappings/mappingHandlers.ts:17-22 | a block with no `octopusUpwardMessages.Committed` event yields no upward message, whatever its number |
| MappingHandlers.CollectUpwardMessages | src/mappings/mappingHandlers.ts:17-22 | the loop over all block events pushes the messages of exactly the `Committed` events, in order |
| MappingHandlers.ExtrinsicResults | src/mappings/mappingHandlers.ts:32-36 | extrinsic i is handled with index i and `startEvtIdx` equal to the event count of extrinsics 0..i-1 |
| MappingHandlers.HandleExtrinsics | src/mappings/mappingHandlers.ts:30-36 | the `map` that advances `startEvtIdx` computes exactly `AllOk` of those results |
| MappingHandlers.NewBlock | src/mappings/mappingHandlers.ts:16-27 | the block record's id is the block hash, and its number, timestamp, parent hash and spec version are the block's |
| MappingHandlers.ConcatMap | src/mappings/mappingHandlers.ts:38-42 | the `reduce` concatenation keeps every record of every extrinsic's list |
| MappingHandlers.ConcatMapPrefix | src/mappings/mappingHandlers.ts:38-42 | the concatenation of the first i extrinsics' lists begins the whole concatenation |
| MappingHandlers.ConcatMapPlacement | src/mappings/mappingHandlers.ts:38-42 | extrinsic i's list sits in the concatenation right after the lists of extrinsics 0..i-1, so the records are in extrinsic order |
| MappingHandlers.ConcatMapMembers | src/mappings/mappingHandlers.ts:38-42 | a record is in a concatenated list iff it is in some extrinsic's list |
| MappingHandlers.OutputNumbered | src/mappings/mappingHandlers.ts:31-36 | an output of extrinsic i has extrinsic id `"{n}-{i}"`, events numbered from the running index, and null account values |
| MappingHandlers.OutputsNumbered | src/mappings/mappingHandlers.ts:31-36 | every output of a successful run has that shape |
| MappingHandlers.ConcatEventIds | src/mappings/mappingHandlers.ts:31-39 | the concatenated events of the first k extrinsics are numbered 0 to count-1 |
| MappingHandlers.BlockEventIds | src/mappings/mappingHandlers.ts:31-39 | the block's event records are `"{n}-0"` to `"{n}-(total-1)"`, total being the number of correlated events |
| MappingHandlers.BlockEventIdsUnique | src/mappings/mappingHandlers.ts:31-39 | no two event records of a block share an id |
| MappingHandlers.ExtrinsicsOf | src/mappings/mappingHandlers.ts:37 | the extrinsic list holds each output's extrinsic, in order |
| MappingHandlers.BlockExtrinsicIds | src/mappings/mappingHandlers.ts:37 | the i-th extrinsic record has id `"{n}-{i}"` |
| MappingHandlers.MergeOn | src/mappings/mappingHandlers.ts:46-48 | merging keys of one map adds exactly those keys |
| MappingHandlers.MergeAllKeys | src/mappings/mappingHandlers.ts:45-50 | the merged key set is the union of all per-extrinsic key sets |
| MappingHandlers.MergeAllFirstTruthy | src/mappings/mappingHandlers.ts:45-50 | a key's merged value is its first truthy value in extrinsic order |
| MappingHandlers.MergeAllFalsy | src/mappings/mappingHandlers.ts:45-50 | a key with no truthy value gets a falsy value |
| MappingHandlers.MergeAllLastFalsy | src/mappings/mappingHandlers.ts:45-50 | with no truthy value, the merged value is the last one in extrinsic order |
| MappingHandlers.MergeAllNull | src/mappings/mappingHandlers.ts:45-50 | merging null-valued maps gives a null-valued map |
| MappingHandlers.AccountMaps | src/mappings/mappingHandlers.ts:45 | the maps merged are the outputs' account maps, in order |
| MappingHandlers.MergeKeys | src/mappings/mappingHandlers.ts:46-48 | the loop over one map's keys, keeping a truthy earlier value and otherwise taking the new one, computes exactly `MergeInto` |
| MappingHandlers.MergeAccountIdMaps | src/mappings/mappingHandlers.ts:45-50 | the `reduce` over the maps computes exactly `MergeAll` |
| MappingHandlers.MergedCreatorsNull | src/mappings/mappingHandlers.ts:45-58 | every creatorId passed to handleAccount is null |
| MappingHandlers.Refreshed | src/mappings/mappingHandlers.ts:53-61 | refreshing keeps exactly the stored ids |
| MappingHandlers.RefreshedStep | src/mappings/mappingHandlers.ts:53-61 | handling one more id changes at most that id's record, and only when its state changed |
| MappingHandlers.ReconcileOne | src/mappings/mappingHandlers.ts:54-60 | a stored account is refreshed and saved iff changed; otherwise a new record is created and nothing is written |
| MappingHandlers.RefreshingUnchanged | src/mappings/mappingHandlers.ts:53-61 | an unchanged account keeps the reconciliation's stored-account invariant without a write |
| MappingHandlers.RefreshingChanged | src/mappings/mappingHandlers.ts:53-61 | a changed account keeps that invariant with its refreshed record saved |
| MappingHandlers.CreatingStep | src/mappings/mappingHandlers.ts:53-61 | a missing account keeps the creation invariant with its new record appended |
| MappingHandlers.ReconcileAccounts | src/mappings/mappingHandlers.ts:52-61 | every merged id is handled exactly once. Stored accounts become their refreshed records, and exactly the changed ones are saved, once each. The new records are exactly the merged ids not stored before, once each, built by handleAccount. |
| MappingHandlers.PutAllLookupNew | src/mappings/mappingHandlers.ts:63 | after the bulk create, each new record is stored under its id |
| MappingHandlers.PutAllLookupOld | src/mappings/mappingHandlers.ts:63 | after the bulk create, an id with no new record keeps its earlier record |
| MappingHandlers.StoredNewAccount | src/mappings/mappingHandlers.ts:57-63 | a touched account that was not stored ends up as handleAccount's record |
| MappingHandlers.StoredOldAccount | src/mappings/mappingHandlers.ts:55-63 | a stored account ends up refreshed if touched, and as it was otherwise |
| MappingHandlers.StoredAfterBlock | src/mappings/mappingHandlers.ts:52-63 | after a block, every touched account holds its fetched state. An account stored before keeps its createdAt; a new one takes the block's timestamp. Untouched accounts are unchanged. |
| MappingHandlers.BulkCreate | src/mappings/mappingHandlers.ts:63-70 | the eight bulk creates are logged in source order, and only the accounts change the stored accounts |
| MappingHandlers.WriteBlock | src/mappings/mappingHandlers.ts:44-70 | the block save, then the account saves, then the bulk creates, with the stored accounts refreshed and extended. Each logged save is of an account stored before, holding its refreshed record. |
| MappingHandlers.HandleBlock | src/mappings/mappingHandlers.ts:15-71 | if an extrinsic's events fail to decode, the error propagates and nothing is written. Otherwise the log is the block save, the saves of changed accounts, and the eight bulk creates. Each logged save holds the refreshed record of an account stored before, and each new account is built from the fetched state with a null creator. |

## Left out

- Accounts.TryUpdateAccount: compares the refreshed fields (nonce as the number `Number(nonce.toString())` and the four balances) with the snapshot's and saves only when one differs, the intended behaviour. The code stores the codec object as the nonce and compares a plain-object copy with the entity instance, so it saves every time; see Findings. The members built on it follow the same intended rule, not the code: Accounts.UpdatedIdempotent, MappingHandlers.ReconcileOne, MappingHandlers.RefreshedStep, MappingHandlers.RefreshingUnchanged, MappingHandlers.RefreshingChanged, MappingHandlers.ReconcileAccounts, MappingHandlers.StoredOldAccount, MappingHandlers.StoredAfterBlock, MappingHandlers.WriteBlock and MappingHandlers.HandleBlock. Where their rows say "saved iff changed" or "the saves of changed accounts", the code saves every touched account that was already stored. Where they give a refreshed account's stored nonce as a number, the code stores the codec object.
- handleExtrinsic's source imports `handleEvent` and `handleSystemTokenTransfer` from `src/mappings/event.ts` and `src/mappings/systemTokenTransfer.ts`, which are not part of this model. The model uses the same-named functions of `src/mappings/mappingHandlers.ts:73-112` in their place.
- `handleCalls`, `handleUpwardMessages` and the chain query `getAccount` (`src/mappings/utils/api.ts`) are function parameters. A failing chain query is not modelled.
- `Promise.all` over the accounts is a sequential loop that takes the ids in an unspecified order. The order of `newAccounts` and of the account saves is unconstrained, as in the code.
- `toHuman()` and `JSON.stringify` of event data are an opaque JSON string plus the optional `sequence` field.
- `Number(event.event.index)` is the event index as given.
- Codec conversions act on decimal digit strings only: `BigInt` throws on anything else, and `Number` gives NaN. Whitespace, sign, hex and float forms, and floating-point precision loss for large numbers, are not modelled. Integers are unbounded naturals.
- Numbers, nonces and tips of blocks and extrinsics are taken as already-decoded naturals. Their `toString` is always decimal, so `BigInt(...) || BigInt(0)` is the number itself.
- The handlers' unused parameters are dropped: `extrinsic` and `idx` of the bridge handlers, and `extrinsic` of `handleEvent` and `handleSystemTokenTransfer` (`src/mappings/mappingHandlers.ts:73-76`, `:92-95`). The wrapper's `block` field is dropped as well.
- Upward messages are collected from every `Committed` event of every block; no block-number test gates `src/mappings/mappingHandlers.ts:17-22`.
- `BigInt(x.toString()) || BigInt(0)` for an extrinsic's nonce and tip (`src/mappings/extrinsics.ts:57`, `:60`) maps only `0n` to `0n`; text `BigInt` cannot parse still throws. The model's nonces and tips are decoded naturals, so neither the throw nor the fallback arises.
- The write log records the order in which writes are issued. `account.save()` in `tryUpdateAccount` (`src/mappings/accounts.ts:45`) is not awaited, so the model says nothing about when those saves complete relative to the bulk creates of `src/mappings/mappingHandlers.ts:63-70`, nor about a save that fails (which does not fail the block).
- The `Account` entity's other store operations, GraphQL schema and the `bridgeMessages` and `calls` mappings are not part of this model.

## Findings

| source | as written | input that shows it | evidently intended | confidence | as-written member | corrected member |
|---|---|---|---|---|---|---|
| src/mappings/accounts.ts:38 | `account.nonce = nonce` stores the `Index` codec object, so the `isEqual(prevAccount, account)` test at line 44 compares a stored number with an object and is never true. A second cause: `prevAccount` (line 28) is a plain-object copy and `account` an `Account` instance, and lodash `isEqual` also compares constructors, so the test fails even when every field is equal. Storing `Number(nonce.toString())` alone does not stop the save. | a stored account whose nonce and four balances already equal the fetched state: it is saved anyway | compare the refreshed fields with the snapshot's fields, nonce as a number as `handleAccount` stores it at line 18, and save only when one differs | not executed | Accounts.AsWrittenAlwaysSaves | Accounts.Updated |
