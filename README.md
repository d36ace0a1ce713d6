# Stratus storage layer: a Dafny model

This project models the core of the Ethereum storage layer of the Stratus node, plus two primitives:

- **In-memory temporary storage.** It holds the state pending during the execution of a block:
  - an optional external block being re-executed;
  - the ordered list of saved transaction executions;
  - the accounts those executions changed, each with the slots written;
  - an optional active block number.

  `InMemoryTemporary.InMemoryTemporaryStorage` is a class whose fields are the state record's fields, and each operation is a method. Saving an execution is a nested loop over account changes and slot changes. It is proved against the fold `ApplyChanges`, and the lemmas about `ApplyChanges` say what a later read sees.
- **The `StratusStorage` facade.**
  - Reads are layered: temporary storage first, then permanent storage, then a default value keyed by the request.
  - A block selection is translated into a point in time, and a block number is clamped to the current block.
  - `commit` saves the block in permanent storage and then always resets temporary storage.

  The two backends are abstract values. A backend is either working or down with an error (`fault`), and its account and slot reads are answered from one shared kind of lookup table (`StateTables`), keyed by what is asked. The reads are pure functions of the two backends. The operations that change backend state are methods of the class `StratusStorage.StratusStorage`.
- **`EvmInput`.** It is built from a deployment, a transaction or a call (module `Evm`).
- **`Nonce`.** It is a newtype over a 64-bit unsigned integer, with its conversions (module `Nonce`).

The integer types are bounded naturals (module `Ints`). Addresses are 20-byte and hashes 32-byte sequences (module `Primitives`).

Where the files disagree with each other, the model follows `stratus_storage.rs`: the facade calls `maybe_read_account`, `maybe_read_slot` and `read_current_block_number` on its backends, and the model gives the abstract backends exactly those operations. The permanent-storage trait of `src/eth/storage/permanent_storage.rs` names some of them differently.

`remove_executions_before(index)` is modelled as written. It removes the first `index - 1` executions, not `index` of them. It does nothing for index 0, and it panics when `index - 1` exceeds the number of pending executions; this panic is the method's precondition.

## Model

| member | source | states |
|---|---|---|
| `Nonce.Default` | src/eth/primitives/nonce.rs:7-8 | the default nonce is zero |
| `Nonce.FromU8` | src/eth/primitives/nonce.rs:19 | the nonce built from a u8 has that numeric value |
| `Nonce.FromU16` | src/eth/primitives/nonce.rs:19 | the nonce built from a u16 has that numeric value |
| `Nonce.FromU32` | src/eth/primitives/nonce.rs:19 | the nonce built from a u32 has that numeric value |
| `Nonce.FromU64` | src/eth/primitives/nonce.rs:19 | the nonce built from a u64 has that numeric value |
| `Nonce.FromUsize` | src/eth/primitives/nonce.rs:19 | the nonce built from a usize of the target's width has that numeric value |
| `Nonce.ToU64` | src/eth/primitives/nonce.rs:30-34 | the u64 read out of a nonce converts back to the same nonce |
| `Nonce.ToUsize` | src/eth/primitives/nonce.rs:24-28 | defined only when the value fits in `usize` (the panic of `as_usize`); the result fits and converts back to the same nonce |
| `Nonce.U64RoundTrip` | src/eth/primitives/nonce.rs:30-34 | u64 to nonce and back to u64 is the identity |
| `Nonce.NonceRoundTrip` | src/eth/primitives/nonce.rs:19 | nonce to u64 and back to nonce is the identity |
| `Nonce.NarrowConversionsPreserveValue` | src/eth/primitives/nonce.rs:19 | conversions from u8, u16 and u32 keep the numeric value, which reads back through u64, and agree with each other |
| `Nonce.UsizeRoundTrip` | src/eth/primitives/nonce.rs:24-28 | usize to nonce and back, and usize to nonce to u64, keep the value |
| `Nonce.UsizeFits` | src/eth/primitives/nonce.rs:24-28 | on a 64-bit target every nonce fits in usize; on a 32-bit target exactly those below 2^32 do |
| `Nonce.EqualityIsValueEquality` | src/eth/primitives/nonce.rs:7-8 | two nonces are equal iff their u64 values are equal |
| `Primitives.DefaultAccount` | src/eth/storage/stratus_storage.rs:75-78 | the default account has the zero address and code hash, zero balance and nonce, no bytecode and no slot indexes |
| `Primitives.EmptyAccount` | src/eth/storage/inmemory/inmemory_temporary.rs:234 | the empty account has the given address and is otherwise the default account: zero balance and nonce, no bytecode, no slot indexes |
| `Primitives.DefaultSlot` | src/eth/storage/stratus_storage.rs:92-95 | the default slot carries the requested index and a zero value |
| `Evm.FromDeployment` | src/eth/evm/evm.rs:21-29 | a deployment has no target contract; caller and data are copied |
| `Evm.FromTransaction` | src/eth/evm/evm.rs:31-39 | a transaction targets its contract; caller and data are copied |
| `Evm.FromCall` | src/eth/evm/evm.rs:41-49 | a call runs from the zero address against its contract; data is copied |
| `Evm.OnlyDeploymentHasNoContract` | src/eth/evm/evm.rs:21-49 | of the three conversions, exactly the deployment yields no contract, and all keep the data |
| `Evm.CallIsTransactionFromZero` | src/eth/evm/evm.rs:31-49 | a call converts exactly as a transaction from the zero address to the same contract |
| `Evm.TransactionRecoverable` | src/eth/evm/evm.rs:31-39 | the transaction is recovered from its EVM input: the conversion loses nothing |
| `InMemoryTemporary.NewTemporaryAccount` | src/eth/storage/inmemory/inmemory_temporary.rs:230-237 | a new temporary account is the default account at the given address, with no slots |
| `InMemoryTemporary.LookupOrNew` | src/eth/storage/inmemory/inmemory_temporary.rs:93-96 | the pending account for an address if there is one, else a new empty account at that address with no slots; in a well-formed store it always sits at the address asked for |
| `InMemoryTemporary.MergeInfo` | src/eth/storage/inmemory/inmemory_temporary.rs:99-116 | nonce, balance and both slot-index sets are replaced exactly when the change carries them; bytecode is replaced only by a carried `Some(code)`, so `Some(None)` never clears it; address and code hash are never touched |
| `InMemoryTemporary.MergeInfoInPlace` | src/eth/storage/inmemory/inmemory_temporary.rs:99-116 | the field-by-field overwrite computes `MergeInfo` |
| `InMemoryTemporary.MergeSlotsInPlace` | src/eth/storage/inmemory/inmemory_temporary.rs:118-123 | the slot loop computes `MergeSlots`: every modified slot, in order, inserted under its index |
| `InMemoryTemporary.MergeSlots` | src/eth/storage/inmemory/inmemory_temporary.rs:118-123 | applying slot changes never loses an index, and the last modified slot is stored under its own index |
| `InMemoryTemporary.MergeSlotsDomain` | src/eth/storage/inmemory/inmemory_temporary.rs:118-123 | after the slot changes an account holds exactly its old indexes plus the written ones |
| `InMemoryTemporary.MergeSlotsKeyedByIndex` | src/eth/storage/inmemory/inmemory_temporary.rs:121 | each slot is stored under its own `slot.index`, and merging keeps that so |
| `InMemoryTemporary.MergeSlotsKeeps` | src/eth/storage/inmemory/inmemory_temporary.rs:119-123 | an index no change writes keeps its slot, or stays absent |
| `InMemoryTemporary.MergeSlotsStores` | src/eth/storage/inmemory/inmemory_temporary.rs:119-123 | a modified slot not overwritten later is stored under its index |
| `InMemoryTemporary.ApplyChange` | src/eth/storage/inmemory/inmemory_temporary.rs:93-123 | one change adds its address to the pending accounts; that account's info is the change merged into the looked-up or new account, and so are its slots; every other account is left as it was |
| `InMemoryTemporary.ApplyChanges` | src/eth/storage/inmemory/inmemory_temporary.rs:92-124 | applying an execution's changes in order never drops a pending account |
| `InMemoryTemporary.ApplyChangeKeepsSlot` | src/eth/storage/inmemory/inmemory_temporary.rs:118-123 | a change that does not write a pending slot leaves what `read_slot` returns for it as it was |
| `InMemoryTemporary.ApplyChangeWellFormed` | src/eth/storage/inmemory/inmemory_temporary.rs:94-123 | one change keeps accounts under their own addresses and slots under their own indexes |
| `InMemoryTemporary.ApplyChangesDomain` | src/eth/storage/inmemory/inmemory_temporary.rs:92-97 | an execution adds exactly the addresses its changes mention to the pending accounts |
| `InMemoryTemporary.ApplyChangesWellFormed` | src/eth/storage/inmemory/inmemory_temporary.rs:92-124 | an execution keeps the pending accounts well formed |
| `InMemoryTemporary.ApplyChangesUntouched` | src/eth/storage/inmemory/inmemory_temporary.rs:92-124 | accounts not mentioned in the changes are untouched |
| `InMemoryTemporary.ApplyChangesLastTouch` | src/eth/storage/inmemory/inmemory_temporary.rs:93-123 | an account changed last by the k-th change is that change merged into the account as it stood before it |
| `InMemoryTemporary.SavedSlotIsRead` | src/eth/storage/inmemory/inmemory_temporary.rs:118-123 | a slot saved by an execution and not overwritten later in it is what `read_slot` returns for its address and index |
| `InMemoryTemporary.ReadAccountIn` | src/eth/storage/inmemory/inmemory_temporary.rs:164-189 | an account is found iff its address is pending; the result equals the stored info and carries the requested address |
| `InMemoryTemporary.ReadSlotIn` | src/eth/storage/inmemory/inmemory_temporary.rs:191-211 | a slot is found iff the account and the slot are pending; the result is the stored slot and carries the requested index |
| `InMemoryTemporary.InMemoryTemporaryStorage.ResetReadsNothing` | src/eth/storage/inmemory/inmemory_temporary.rs:36-41 | in a store in its reset state every account and slot read misses, and no execution, external block or active block number is held |
| `InMemoryTemporary.InMemoryTemporaryStorage.constructor` | src/eth/storage/inmemory/inmemory_temporary.rs:49-59 | a new store is empty |
| `InMemoryTemporary.InMemoryTemporaryStorage.Reset` | src/eth/storage/inmemory/inmemory_temporary.rs:217-221 | external block and active block number become `None`; executions and accounts become empty |
| `InMemoryTemporary.InMemoryTemporaryStorage.SetExternalBlock` | src/eth/storage/inmemory/inmemory_temporary.rs:76-80 | the external block becomes `Some(block)`; nothing else changes |
| `InMemoryTemporary.InMemoryTemporaryStorage.ReadExternalBlock` | src/eth/storage/inmemory/inmemory_temporary.rs:82-85 | returns the stored external block and changes nothing |
| `InMemoryTemporary.InMemoryTemporaryStorage.SaveExecution` | src/eth/storage/inmemory/inmemory_temporary.rs:87-130 | the accounts become `ApplyChanges` of the old accounts and the changes; the execution is appended to the list; the rest is unchanged and the invariant kept |
| `InMemoryTemporary.InMemoryTemporaryStorage.ReadExecutions` | src/eth/storage/inmemory/inmemory_temporary.rs:132-136 | returns the pending list unchanged and changes nothing |
| `InMemoryTemporary.InMemoryTemporaryStorage.RemoveExecutionsBefore` | src/eth/storage/inmemory/inmemory_temporary.rs:138-148 | index 0 is a no-op; otherwise the list becomes the old list without its first `index - 1` entries; requires those entries to exist |
| `InMemoryTemporary.InMemoryTemporaryStorage.SetActiveBlockNumber` | src/eth/storage/inmemory/inmemory_temporary.rs:153-157 | the active block number becomes `Some(number)`; nothing else changes |
| `InMemoryTemporary.InMemoryTemporaryStorage.ReadActiveBlockNumber` | src/eth/storage/inmemory/inmemory_temporary.rs:159-162 | returns the stored active block number |
| `InMemoryTemporary.InMemoryTemporaryStorage.ReadAccount` | src/eth/storage/inmemory/inmemory_temporary.rs:164-189 | `None` for an unknown address; otherwise an account whose fields are the stored info, at the requested address |
| `InMemoryTemporary.InMemoryTemporaryStorage.ReadSlot` | src/eth/storage/inmemory/inmemory_temporary.rs:191-211 | `None` when the account or slot is absent; otherwise the stored slot, at the requested index |
| `StratusStorage.StateTables.MaybeReadAccount` | src/eth/storage/stratus_storage.rs:71-73 | an error exactly when the backend fails, and then its error; otherwise a hit exactly when an account is stored for the address and point in time, and then that account, at the requested address when the tables are well keyed; both backends answer through it |
| `StratusStorage.StateTables.MaybeReadSlot` | src/eth/storage/stratus_storage.rs:88-90 | the same for a stored slot, which is at the requested index when the tables are well keyed |
| `StratusStorage.TemporaryBackend.AfterReset` | src/eth/storage/stratus_storage.rs:159 | a working backend ends with no pending accounts or slots; a failing one is unchanged; the fault is kept, and well-keyed entries stay well keyed |
| `StratusStorage.PermanentBackend.ReadCurrentBlockNumber` | src/eth/storage/permanent_storage.rs:46-47 | a working backend answers its current block number; a failing one answers its own error |
| `StratusStorage.PermanentBackend.ReadBlock` | src/eth/storage/permanent_storage.rs:56-57 | an error exactly when the backend fails, and then its error; otherwise the block for the selection exactly when one is stored |
| `StratusStorage.PermanentBackend.AfterSave` | src/eth/storage/permanent_storage.rs:53-54 | a working backend appends the block to its log of saved blocks and takes on the block, account and slot tables its implementation computes; `read_block` by hash then returns every logged block, the new one included; the current block number is never changed; a failing backend is unchanged |
| `StratusStorage.PermanentBackend.AfterResetAt` | src/eth/storage/permanent_storage.rs:88-89 | a working backend's current block becomes the number; its log keeps only the blocks numbered at or below it; it takes on the tables its implementation computes, which hold no later block, and `read_block` by hash still returns every block left in the log; a failing backend is unchanged |
| `StratusStorage.BlocksUpTo` | src/eth/storage/permanent_storage.rs:88-89 | keeps the blocks numbered at most the given number, each as many times as it was saved, and drops the rest |
| `StratusStorage.BlocksUpToMembers` | src/eth/storage/permanent_storage.rs:88-89 | every kept block was saved, and every saved block numbered at most the given number is kept |
| `StratusStorage.BlocksUpToConcat` | src/eth/storage/permanent_storage.rs:88-89 | filtering a concatenation is the concatenation of the filtered parts, so the kept blocks stay in the order they were saved |
| `StratusStorage.ResetAtUndoesSave` | src/eth/storage/permanent_storage.rs:88-89 | given the tables computed for the reset, resetting below a block just saved gives the same backend as the reset alone, so the save leaves no trace in the block number or the log; the block can no longer be selected by its hash |
| `StratusStorage.ResetAtKeepsSave` | src/eth/storage/permanent_storage.rs:88-89 | resetting at or above a block just saved keeps it last in the log, after the earlier blocks that are kept, and `read_block` by its hash still returns it |
| `StratusStorage.ReadAccount` | src/eth/storage/stratus_storage.rs:69-83 | temporary account if any, else permanent, else the default account at the requested address; a temporary error is returned without consulting permanent storage; a permanent error is returned when temporary storage misses; with well-keyed backends the result always has the requested address |
| `StratusStorage.ReadSlot` | src/eth/storage/stratus_storage.rs:86-100 | same layering and the same errors; the default slot carries the requested index; with well-keyed backends the result always has the requested index |
| `StratusStorage.TemporaryShadowsPermanent` | src/eth/storage/stratus_storage.rs:71-73 | when temporary storage answers, with a value or an error, permanent storage does not affect the read |
| `StratusStorage.ReadsAfterTemporaryReset` | src/eth/storage/stratus_storage.rs:105-114 | after a commit reset a working temporary storage, reads are answered by permanent storage or the default |
| `StratusStorage.TranslateToPointInTime` | src/eth/storage/stratus_storage.rs:184-202 | `Latest` is `Present`; a number gives `Past` of the minimum of it and the current block; earliest and hash give `Past` of the found block's number, or an error when not found; backend errors propagate |
| `StratusStorage.SavedBlockIsSelectable` | src/eth/storage/stratus_storage.rs:102-109 | once a working permanent backend has saved a block, selecting it by hash gives a point in time at that block's number |
| `StratusStorage.ResetBoundsSelections` | src/eth/storage/permanent_storage.rs:88-89 | after a working permanent backend is reset to a number, no block selection translates to a point in time beyond that number |
| `StratusStorage.NumberSelectionClamped` | src/eth/storage/stratus_storage.rs:187-194 | a number at or below the current block is kept; a larger one becomes the current block |
| `StratusStorage.StratusStorage.constructor` | src/eth/storage/stratus_storage.rs:32-34 | the facade holds the given backends |
| `StratusStorage.StratusStorage.ReadCurrentBlockNumber` | src/eth/storage/stratus_storage.rs:41-46 | returns the permanent backend's result unchanged |
| `StratusStorage.StratusStorage.IncrementBlockNumber` | src/eth/storage/stratus_storage.rs:48-54 | returns the permanent backend's result unchanged: an error, or the incremented number, which is now the current one |
| `StratusStorage.StratusStorage.SaveBlock` | src/eth/storage/permanent_storage.rs:53-54 | a working backend logs the block and takes on the tables computed from it, in which every logged block is found by its hash; a failing one changes nothing and its error is returned |
| `StratusStorage.StratusStorage.ResetTemp` | src/eth/storage/stratus_storage.rs:156-162 | temporary storage is reset and its result returned; permanent storage is untouched |
| `StratusStorage.StratusStorage.ResetPerm` | src/eth/storage/stratus_storage.rs:164-170 | permanent storage is reset to the block number, with the tables computed for it, and its result returned; temporary storage is untouched |
| `StratusStorage.StratusStorage.Commit` | src/eth/storage/stratus_storage.rs:105-114 | saves the block, then resets temporary storage whether or not the save succeeded; returns the reset error if the reset failed, else the save result |

## Left out

- Locking, metrics, timing and tracing: the `RwLock` only serialises access, so each method is one atomic step. `Instant`, the `metrics::inc_*` calls and the `tracing` macros have no effect on state.
- `InMemoryTemporaryStorageState` and `InMemoryTemporaryStorage` are one class here. The state's `reset` and the storage's `reset` are the one method `Reset`.
- Entry references: `save_execution` updates the account through a mutable entry reference. The model reads the account as a value, updates it and writes it back, which gives the same final map.
- Iteration order: the slot changes of an account are a hash map in the source, iterated in an unspecified order. The model takes them as a sequence in that order. Two changes to the same index are resolved by that order, as in the source.
- `Execution::changes_to_persist` is not part of this model. Its result is the input field `TransactionExecution.changes`.
- `Account`, `Slot`, `Block`, `ExternalBlock` and `TransactionMined` are defined outside the files modelled here. They keep only the fields the storage code uses. In `Account::default()` the code hash is taken to be the zero hash.
- `flush` of the in-memory storage always succeeds and does nothing. It has no method.
- The other facade operations only delegate to a backend and are not modelled: `read_block` (used inside the translation), `check_conflicts`, `save_account_changes`, `read_mined_transaction`, `read_logs`, `save_accounts` and `enable_genesis`.
- Backend internals: how permanent storage computes its tables is implementation detail. That covers how it answers reads at a point in time, how `save_block` persists a block's changes and how `reset_at` rolls state back. `save_block`, `reset_at`, `SaveBlock`, `ResetPerm` and `Commit` therefore take the block, account and slot tables afterwards as parameters. The model demands two things of the new block table. Every block in the log of saved blocks can be looked up by its hash. After a reset, no block lies beyond the reset number. Nothing is assumed about the new account and slot tables, so the model does not say what account or slot reads return after a commit or reset. A successful `save_block` appends the block to the log. A successful `reset_at` sets the current block and drops the logged blocks beyond it. A failing backend changes nothing.
- Backend failures: a backend's `fault` is fixed in its value. A failing call is therefore modelled as a backend that is down, whose every call fails with the same error and changes nothing. Per-call failures on a backend that keeps working, such as a commit conflict that the block executor retries, are not modelled, and nothing is claimed about calls after a failed one.
- StratusStorage.StratusStorage.IncrementBlockNumber: requires a working backend's block number to be below 2^64 - 1, because incrementing the largest 64-bit value overflows (a panic of the `U64` addition). The backend's own overflow handling is not part of this model.
- Errors: the in-memory operations return `Ok` on every path, so their methods return no result. `anyhow` errors and `EthStorageError` are one `StorageError` type, and error messages are not modelled beyond "block not found".
- `Display` for `Nonce` is formatting only.
- `src/eth/executor.rs` is not part of this model. It is concurrency and orchestration around a foreign EVM. `src/eth/primitives/block.rs` is also left out: it converts to foreign library types and serialises them.
- Asynchrony: every `async` call is one sequential step.
