# Relay-chain indexer core, modelled in Dafny

This project models the deterministic core of a SubQuery indexer for the
Parallel Finance staking pool on the Kusama and Polkadot relay chains.

- **Address derivation** (`src/mappings/utils.ts`). A parachain's sovereign
  account is the encoding of a 32-byte preimage: `"para"`, the para id as four
  little-endian bytes, then zeros. A derivative sub-account of the pool is the
  encoded BLAKE2b-256 hash of a buffer. The buffer holds the seed
  `"modlpy/utilisuba"`, then the decoded signer bytes, then the 16-bit index
  high byte first (as `bnToU8a(index, 16)` followed by `.reverse()` is read
  here; see `Address.IndexBytes` under "Left out"). The pool's staking ledgers are the sub-accounts of the
  sovereign account of para 2085 (Kusama) or 2012 (Polkadot), one per
  derivative index. Display names resolve in at most one hop through a parent
  identity.
- **Reconciliation** (`src/mappings/mappingHandlers.ts`). Every 600th block,
  `handleValidators` walks each staking ledger and each validator it
  nominates. It gets or creates the `Validator` record keyed
  `"<ledger position>-<slot>"`, updates it when commission or stakes changed,
  and saves it. `handleParachainInfos` does the same for each registered
  parachain, keyed `"<block hash>-<para id>"`. There it refreshes the deposit
  (free minus misc-frozen balance of the sovereign account).

Modules:

- `Wrappers`: `Option`, `Result`, `Outcome`.
- `Bytes`: bytes, little-endian encoding, reversal, ASCII.
- `Decimal`: decimal rendering of naturals and its inverse.
- `Address`: the derivations of `utils.ts`.
- `Chain`: the queries of `utils.ts`, over a `ChainSnapshot` value.
- `Handlers`: the entity store as a class, and the three handlers as its
  methods.

The handler loops keep their source form. They are `while` loops over the
ledgers, the slots and the para ids, and they write to `map` fields of
`Store`. Each method is proved against a predicate that states the whole
effect of the pass:

- `ValidatorsReconciled` and `ParachainInfosReconciled` state the new map.
- `SaveOrder` and `RowIds` state the log of ids passed to `save()`.

Lemmas then derive what the source promises from those predicates.

The change test of `handleValidators` compares the stored name with itself
(mappingHandlers.ts:35). A change of name alone is therefore never written.
The model keeps this behaviour as written: `UpsertValidator` and
`Store.ReconcileSlot` contain the self-comparison, and
`NameOnlyChangeIsDropped` proves the consequence.

The handlers save every fetched record, even when nothing changed. They
never prune a validator slot, and they drop a name-only change. The model
does the same.

## Model

| member | source | states |
|---|---|---|
| Bytes.Zeros | src/mappings/utils.ts:19 | `new Uint8Array(n)` (`EMPTY_U8A_32`, the padding of utils.ts:26) is n bytes, all zero |
| Bytes.LittleEndian | src/mappings/utils.ts:25 | `bnToU8a(n, 8 * width, true)` is exactly `width` bytes; their value is fixed by `LittleEndianRoundTrip` |
| Bytes.FromLittleEndian | src/mappings/utils.ts:89 | `u8aToBigInt` reads an unsigned number below 256 to the power of its byte count; `LittleEndianRoundTrip` makes it the inverse of `LittleEndian` |
| Bytes.LittleEndianRoundTrip | src/mappings/utils.ts:25 | reading back the `width` little-endian bytes of any n < 256^width gives n |
| Bytes.LittleEndianInjective | src/mappings/utils.ts:25 | distinct numbers below 256^width have distinct little-endian encodings |
| Bytes.Reverse | src/mappings/utils.ts:33 | `.reverse()` has the same length and puts byte i at position length-1-i |
| Bytes.AsciiBytes | src/mappings/utils.ts:24 | `stringToU8a` on an ASCII string gives one byte per character, equal to its code |
| Decimal.NatToDecimal | src/mappings/mappingHandlers.ts:23 | the decimal rendering of a number is a non-empty digit string with no leading zero unless it is "0" |
| Decimal.DecimalRoundTrip | src/mappings/mappingHandlers.ts:23 | parsing the rendering of n gives n back |
| Decimal.DecimalInjective | src/mappings/mappingHandlers.ts:55 | distinct numbers render to distinct strings |
| Address.ParaTagIsAscii | src/mappings/utils.ts:24 | the tag bytes are exactly `stringToU8a("para")` |
| Address.SubAccountSeedIsAscii | src/mappings/utils.ts:31 | the seed bytes are exactly `stringToU8a("modlpy/utilisuba")` |
| Address.SovereignPreimage | src/mappings/utils.ts:21-28 | the preimage is 32 bytes: "para", then the para id little-endian in bytes 4-7, then zeros in bytes 8-31 |
| Address.SovereignPreimageInjective | src/mappings/utils.ts:24-27 | distinct para ids below 2^32 give distinct 32-byte preimages |
| Address.SovereignAccountOf | src/mappings/utils.ts:21-28 | with a codec that round-trips 32-byte ids, the sovereign account of a para id decodes to its 32-byte preimage |
| Address.SovereignAccountsDistinct | src/mappings/utils.ts:21-28 | with such a codec, distinct para ids have distinct sovereign accounts |
| Address.GetSovereignAccounts | src/mappings/utils.ts:50-52 | one account per para id, same length and order, element i is the sovereign account of para id i |
| Address.IndexBytes | src/mappings/utils.ts:33 | for an index below 65536, the two bytes are the 16-bit index high byte first |
| Address.SubAccountPreimage | src/mappings/utils.ts:31-39 | the buffer has length 16 + signer length + 2; the seed is at offset 0, the signer bytes at offset 16, the index big-endian in the last two bytes |
| Address.SubAccountPreimageInjective | src/mappings/utils.ts:33-39 | for a fixed signer, distinct indices below 65536 give distinct buffers |
| Address.SubAccountIdOf | src/mappings/utils.ts:30-43 | throws MalformedAddress exactly when the signer does not decode and IndexOutOfRange exactly when it decodes but the index needs more than 16 bits; otherwise the result is the encoded hash of the sub-account buffer |
| Address.SetAt | src/mappings/utils.ts:37-39 | `Uint8Array.set(src, offset)` writes src at offset and leaves the bytes before and after unchanged |
| Address.SpliceThree | src/mappings/utils.ts:34-39 | three `set` calls at offsets 0, a and a + b over a buffer of the total length leave the concatenation of the three parts |
| Address.SubAccountId | src/mappings/utils.ts:30-43 | the in-place buffer method returns exactly what `SubAccountIdOf` specifies, errors included |
| Address.StartsWith | src/mappings/utils.ts:67-69 | `chain.startsWith(prefix)` holds exactly when the chain name is at least as long as the prefix and agrees with it character by character |
| Address.IndexBytesOrderFree | src/mappings/utils.ts:33 | the index's two bytes read the same in either byte order exactly when the index is a multiple of 257, which index 0 is |
| Address.NetworkParaId | src/mappings/utils.ts:66-73 | "Kusama…" selects 2085; else "Polkadot…" selects 2012; no para id exactly when neither prefix matches |
| Address.SubAccounts | src/mappings/utils.ts:76 | on success, one sub-account per index in order; on failure, some index's derivation threw that error |
| Address.StakingLedgers | src/mappings/utils.ts:63-77 | an unknown network has no ledgers and throws nothing; a known network that throws nothing has one ledger per derivative index |
| Address.KnownNetworkLedgers | src/mappings/utils.ts:63-77 | on a known network with a round-tripping codec, the ledgers exist and ledger k is the encoded hash of the sub-account buffer of the network's sovereign preimage and index k |
| Chain.GetIdentity | src/mappings/utils.ts:79-97 | a direct identity's display wins; else a sub-identity whose parent has an identity gives "parent/index"; else "" |
| Chain.IdentityIsOneHop | src/mappings/utils.ts:85-96 | when A's parent P has no direct identity but P's own parent does, A resolves to "" while P resolves to a non-empty name: resolution stops after one hop |
| Chain.SubIdentityNamesDistinct | src/mappings/utils.ts:89-93 | two sub-identities of one parent with different indices get different names |
| Chain.Available | src/mappings/utils.ts:59 | the available balance plus misc-frozen is free; it is never above free and is negative exactly when misc-frozen exceeds free |
| Chain.GetAvailableBalances | src/mappings/utils.ts:54-61 | one balance per account, same length and order, each free − miscFrozen |
| Chain.InfosOf | src/mappings/utils.ts:118-124 | one info per nominated validator, in order, holding its stash id, resolved name, total stake and commission |
| Chain.GetValidatorInfos | src/mappings/utils.ts:113-125 | nothing for an account that does not nominate, else one info per nomination target, entry i holding target i's stash id, resolved name, total stake and commission |
| Handlers.ValidatorKey | src/mappings/mappingHandlers.ts:23 | the key `${derivativeIndex}-${idx}` has a first '-' with decimal digits before and after it, reading d before and i after |
| Handlers.ParseValidatorKey | src/mappings/mappingHandlers.ts:23 | whatever slot a key parses to renders back to that key |
| Handlers.ValidatorKeyRoundTrip | src/mappings/mappingHandlers.ts:23 | the key `"d-i"` parses back to exactly (d, i) |
| Handlers.ValidatorKeyInjective | src/mappings/mappingHandlers.ts:19-23 | distinct (ledger position, slot) pairs have distinct keys |
| Handlers.ParachainKey | src/mappings/mappingHandlers.ts:55 | the key `${blockHash}-${paraId}` is the hash, a '-', then decimal digits reading the para id |
| Handlers.ParachainKeyInjective | src/mappings/mappingHandlers.ts:55 | within one block, distinct para ids have distinct keys |
| Handlers.ValidatorProps | src/mappings/mappingHandlers.ts:22-27 | the props of slot i of ledger position d carry key "d-i" and derivative index d (the position, not an index value) |
| Handlers.UpsertValidator | src/mappings/mappingHandlers.ts:29-41 | the record carries the fetched commission and stakes; a new record is the props; a stored one keeps its id, derivative index and stash id, is returned unchanged when commission and stakes match, and otherwise takes the fetched name and the block height |
| Handlers.NameOnlyChangeIsDropped | src/mappings/mappingHandlers.ts:32-41 | a stored validator with unchanged commission and stakes keeps its old name and height even when the fetched name differs |
| Handlers.UpsertValidatorIdempotent | src/mappings/mappingHandlers.ts:29-43 | reconciling the same fetched values twice gives the record of once |
| Handlers.UpsertParachainInfo | src/mappings/mappingHandlers.ts:62-69 | the record carries the fetched deposit; a new record is the props; a stored one keeps id, para id and sovereign account, is unchanged when the deposit matches, and otherwise takes the block height and timestamp |
| Handlers.UpsertParachainInfoIdempotent | src/mappings/mappingHandlers.ts:62-71 | reconciling the same snapshot twice gives the record of once |
| Handlers.FetchedSlotIsNominee | src/mappings/mappingHandlers.ts:19-22 | slot (d, i) is fetched exactly when ledger d nominates more than i targets, and it then holds the info of ledger d's i-th target |
| Handlers.Fetched | src/mappings/mappingHandlers.ts:19-20 | one info list per staking ledger, in ledger order, each the validators that ledger nominates |
| Handlers.RowKeys | src/mappings/mappingHandlers.ts:21-23 | the first n slot keys of ledger position d, in slot order |
| Handlers.ParachainRows | src/mappings/mappingHandlers.ts:49-61 | one row per para id in order, keyed "<hash>-<para id>", paired with that para's sovereign account and its free − miscFrozen balance, stamped with the block height and time |
| Handlers.ParachainRowAt | src/mappings/mappingHandlers.ts:53-61 | row j is built from `sovereignAccounts[j]` and `availableBalances[j]` |
| Handlers.ParachainRowIdsDistinct | src/mappings/mappingHandlers.ts:53-55 | distinct registered para ids give rows with distinct keys |
| Handlers.ParachainRowsKeyed | src/mappings/mappingHandlers.ts:53-61 | two rows with one key are the same row |
| Handlers.ParachainStep | src/mappings/mappingHandlers.ts:62-71 | reconciling row n extends the reconciled prefix by one row; a repeated para id is reconciled to the same record again |
| Handlers.SlotsUpsertedStep | src/mappings/mappingHandlers.ts:29-43 | saving slot (d, i)'s reconciled record keeps every earlier slot reconciled |
| Handlers.OthersKeptStep | src/mappings/mappingHandlers.ts:43 | saving slot (d, i) changes no record other than that slot's |
| Handlers.UnwalkedSlotUntouched | src/mappings/mappingHandlers.ts:30 | when slot (d, i) is reached, its stored record is the one from before the pass |
| Handlers.LedgerDone | src/mappings/mappingHandlers.ts:19-45 | finishing ledger position d is starting position d + 1, and d's slot keys extend the save log |
| Handlers.ValidatorWalkDone | src/mappings/mappingHandlers.ts:16-46 | having walked every ledger is having reconciled every fetched slot and kept every other record |
| Handlers.RowKeysMembership | src/mappings/mappingHandlers.ts:21-23 | a key is among the first m slot keys of position d exactly when it parses to slot (d, i) with i < m |
| Handlers.SaveOrderKeys | src/mappings/mappingHandlers.ts:19-45 | the ids saved by a pass are exactly the keys of the fetched slots |
| Handlers.SaveOrderDistinct | src/mappings/mappingHandlers.ts:19-45 | each fetched slot is saved exactly once |
| Handlers.ValidatorsNeverRemoved | src/mappings/mappingHandlers.ts:16-46 | after the validator pass every key stored before is still stored |
| Handlers.StaleSlotKept | src/mappings/mappingHandlers.ts:16-46 | a stored slot at or beyond its ledger's nomination count, or of a ledger position not derived, is left exactly as it was |
| Handlers.FetchedSlotRecord | src/mappings/mappingHandlers.ts:22-41 | after the pass, a fetched slot's record has the fetched commission and stakes; a new one holds every fetched field; a stored one is unchanged when commission and stakes match, and otherwise takes the fetched name and the height |
| Handlers.ParachainInfosNeverRemoved | src/mappings/mappingHandlers.ts:48-73 | after the parachain pass every key stored before is still stored |
| Handlers.ParachainSnapshotRecord | src/mappings/mappingHandlers.ts:53-71 | after the pass, para id j's snapshot is keyed "<hash>-<para id>" and has the fetched deposit; a new one pairs the para with its sovereign account; height and time move only when the deposit changed; its key is the j-th id saved |
| Handlers.UnknownNetworkValidatorPass | src/mappings/mappingHandlers.ts:17-19 | on a network that is neither Kusama nor Polkadot the validator pass changes and saves nothing |
| Handlers.Store.GetValidator | src/mappings/mappingHandlers.ts:30 | `Validator.get(id)` returns the record stored under id, or none |
| Handlers.Store.SaveValidator | src/mappings/mappingHandlers.ts:43 | `save()` stores the record under its id, logs the id, and touches nothing else |
| Handlers.Store.GetParachainInfo | src/mappings/mappingHandlers.ts:63 | `ParachainInfo.get(id)` returns the record stored under id, or none |
| Handlers.Store.SaveParachainInfo | src/mappings/mappingHandlers.ts:71 | `save()` stores the snapshot under its id, logs the id, and touches nothing else |
| Handlers.Store.ReconcileSlot | src/mappings/mappingHandlers.ts:21-44 | one inner iteration saves slot (d, i)'s reconciled record, keeps earlier slots reconciled and logs key "d-i" |
| Handlers.Store.ReconcileLedger | src/mappings/mappingHandlers.ts:20-44 | the inner loop reconciles and saves every slot of ledger position d, in slot order |
| Handlers.Store.ReconcileLedgers | src/mappings/mappingHandlers.ts:19-45 | the outer loop leaves every fetched slot reconciled, every other record unchanged, and the save log extended by the keys in walk order |
| Handlers.Store.HandleValidators | src/mappings/mappingHandlers.ts:16-46 | throws, writing nothing, exactly when the ledgers cannot be derived; otherwise the validator pass is done as specified; parachain snapshots are untouched |
| Handlers.Store.ReconcileParachain | src/mappings/mappingHandlers.ts:53-72 | one iteration saves row n's reconciled snapshot and extends the reconciled prefix |
| Handlers.Store.HandleParachainInfos | src/mappings/mappingHandlers.ts:48-73 | every row is reconciled and saved once, in para id order; records of other keys are unchanged; validators are untouched |
| Handlers.IsSampled | src/mappings/mappingHandlers.ts:77 | a block is sampled exactly when its number is a multiple of 600 |
| Handlers.Store.HandleBlock | src/mappings/mappingHandlers.ts:75-85 | off the 600-block sample nothing changes; on it, the state once both passes have finished is both passes done, the parachain pass included when the validator pass throws |

## Left out

- The SS58 address codec (`encodeAddress` / `decodeAddress`) and the BLAKE2b-256 hash of RFC 7693 are foreign primitives. They are function-valued parameters (`Crypto`). The only property assumed of them, where a lemma needs one, is that decoding an encoded 32-byte id returns it (`CodecRoundTrips`). Collision-freedom after hashing is not claimed. It is proved for the sub-account preimages, and for sovereign accounts through the codec round-trip.
- Every `api.query.*` and `api.rpc.*` call is network I/O. A `ChainSnapshot` value holds what those calls return: chain name, para ids, account balances, nominations, identities, stakes and commissions.
- `getTotalStakes` and `getCommission` (utils.ts:99-111) are single queries. They are the snapshot's `stakesOf` and `commissionOf` functions; the current-era lookup is not modelled.
- `u8aToString` (UTF-8 decoding of display data) is not modelled: display names are strings already.
- Big-number amounts become integers. Their `toString()` renderings are canonical, so the source's string comparisons of stakes, commission and deposit are integer comparisons here.
- `Promise.all` concurrency, in `handleBlock` and in `getValidatorInfos`, is not modelled. The two passes run one after the other; they touch disjoint collections and `Promise.all` does not cancel the other pass when one throws. Results keep their input order. When `handleValidators` rejects, `Promise.all` rejects at once, the `catch` logs, and `handleBlock` returns without waiting for `handleParachainInfos`, whose saves may land after it returns. `HandleBlock`'s postcondition describes the state once both passes have finished, not the state when `handleBlock` returns.
- The `try`/`catch` with `logger.error` in `handleBlock` is not modelled. `HandleValidators` returns its thrown error as an `Outcome`, and `HandleBlock` discards it.
- Address.IndexBytes: `bnToU8a(index, 16)` (utils.ts:33, where no byte order is passed) is taken to use its default, little-endian, so after `.reverse()` the index is high byte first. If the call instead returned big-endian bytes, or if the chain's derivation expects a 16-bit index low byte first, the two readings agree only when both bytes of the index are equal (`IndexBytesOrderFree`); index 0, the only derivative index used (utils.ts:14), is such an index.
- An index of 65536 or more is modelled as a thrown `IndexOutOfRange`, since `bnToU8a(index, 16)` has no room for it. Nothing in the indexer passes such an index (the only derivative index is 0).
- The entity store is two maps plus logs of saved ids. The asynchronous entity API, its persistence and the ordering of awaits are not modelled.
- Only the block number, hash and timestamp of a `SubstrateBlock` are read.
- Pruning of vacated validator slots, skip-write when unchanged, reward accumulation and crowdloan contributions are not modelled. The handlers do none of them.
