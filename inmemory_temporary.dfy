/**
 * In-memory temporary storage: the pending state of the block being executed.
 * It holds the external block being re-executed, the transaction executions
 * saved so far (in order), the accounts those executions changed (each with its
 * touched slots) and the number of the block being produced.
 */
module InMemoryTemporary {
  import opened Wrappers
  import opened Primitives
  import Nonce

  /**
   * The changes one execution made to one account. `None` means "not changed".
   * `bytecode` is doubly optional: `Some(None)` is a change that carries no code.
   * `slots` lists the slot changes in the order the change map yields them;
   * `None` is a slot that was read but not modified.
   */
  datatype AccountChanges = AccountChanges(
    address: Address,
    nonce: Option<Nonce.Nonce>,
    balance: Option<Wei>,
    bytecode: Option<Option<Bytes>>,
    staticSlotIndexes: Option<SlotIndexes>,
    mappingSlotIndexes: Option<SlotIndexes>,
    slots: seq<Option<Slot>>)

  /** A transaction execution, reduced to its hash and the account changes it persists. */
  datatype TransactionExecution = TransactionExecution(hash: Hash, changes: seq<AccountChanges>)

  /** A pending account: its basic info and the slots written in this block. */
  datatype TemporaryAccount = TemporaryAccount(info: Account, slots: map<SlotIndex, Slot>)

  /** `InMemoryTemporaryAccount::new`: the empty account at `address`, with no slots. */
  function NewTemporaryAccount(address: Address): (account: TemporaryAccount)
    ensures account.info.address == address
    ensures account.info == EmptyAccount(address)
    ensures account.slots == map[]
  {
    TemporaryAccount(EmptyAccount(address), map[])
  }

  // ---------------------------------------------------------------------------
  // Invariant of the pending accounts
  // ---------------------------------------------------------------------------

  /** Every stored slot sits under its own index. */
  predicate SlotsKeyedByIndex(slots: map<SlotIndex, Slot>)
  {
    forall i | i in slots :: slots[i].index == i
  }

  /** Every account is stored under its own address, and its slots under their indexes. */
  predicate AccountsWellFormed(accounts: map<Address, TemporaryAccount>)
  {
    forall a | a in accounts :: accounts[a].info.address == a && SlotsKeyedByIndex(accounts[a].slots)
  }

  // ---------------------------------------------------------------------------
  // Specification of save_execution
  // ---------------------------------------------------------------------------

  /** `accounts.entry(address).or_insert_with(new)`, read as a value. */
  function LookupOrNew(accounts: map<Address, TemporaryAccount>, address: Address): (account: TemporaryAccount)
    ensures address in accounts ==> account == accounts[address]
    ensures address !in accounts ==> account.info == EmptyAccount(address) && account.slots == map[]
    ensures AccountsWellFormed(accounts) ==> account.info.address == address && SlotsKeyedByIndex(account.slots)
  {
    if address in accounts then accounts[address] else NewTemporaryAccount(address)
  }

  /** The basic info of an account after one change: each field is replaced only when the change carries it. */
  function MergeInfo(info: Account, change: AccountChanges): (merged: Account)
    ensures merged.address == info.address && merged.codeHash == info.codeHash
    ensures change.nonce.Some? ==> merged.nonce == change.nonce.value
    ensures change.nonce.None? ==> merged.nonce == info.nonce
    ensures change.balance.Some? ==> merged.balance == change.balance.value
    ensures change.balance.None? ==> merged.balance == info.balance
    ensures change.bytecode.Some? && change.bytecode.value.Some? ==> merged.bytecode == change.bytecode.value
    ensures change.bytecode == None || change.bytecode == Some(None) ==> merged.bytecode == info.bytecode
    ensures info.bytecode.Some? ==> merged.bytecode.Some?
    ensures change.staticSlotIndexes.Some? ==> merged.staticSlotIndexes == change.staticSlotIndexes.value
    ensures change.staticSlotIndexes.None? ==> merged.staticSlotIndexes == info.staticSlotIndexes
    ensures change.mappingSlotIndexes.Some? ==> merged.mappingSlotIndexes == change.mappingSlotIndexes.value
    ensures change.mappingSlotIndexes.None? ==> merged.mappingSlotIndexes == info.mappingSlotIndexes
  {
    info.(
      nonce := if change.nonce.Some? then change.nonce.value else info.nonce,
      balance := if change.balance.Some? then change.balance.value else info.balance,
      bytecode := if change.bytecode.Some? && change.bytecode.value.Some? then change.bytecode.value else info.bytecode,
      staticSlotIndexes := if change.staticSlotIndexes.Some? then change.staticSlotIndexes.value else info.staticSlotIndexes,
      mappingSlotIndexes := if change.mappingSlotIndexes.Some? then change.mappingSlotIndexes.value else info.mappingSlotIndexes)
  }

  /** The indexes that a list of slot changes writes. */
  function WrittenIndexes(writes: seq<Option<Slot>>): set<SlotIndex>
  {
    set j | 0 <= j < |writes| && writes[j].Some? :: writes[j].value.index
  }

  /** The slots of an account after inserting, in order, every modified slot under its index. */
  function MergeSlots(slots: map<SlotIndex, Slot>, writes: seq<Option<Slot>>): (merged: map<SlotIndex, Slot>)
    ensures slots.Keys <= merged.Keys
    ensures writes != [] && writes[|writes| - 1].Some? ==>
              writes[|writes| - 1].value.index in merged &&
              merged[writes[|writes| - 1].value.index] == writes[|writes| - 1].value
    decreases |writes|
  {
    if writes == [] then slots
    else
      var before := MergeSlots(slots, writes[..|writes| - 1]);
      match writes[|writes| - 1]
      case None => before
      case Some(slot) => before[slot.index := slot]
  }

  /** The pending accounts after one account change. */
  function ApplyChange(accounts: map<Address, TemporaryAccount>, change: AccountChanges): (updated: map<Address, TemporaryAccount>)
    ensures updated.Keys == accounts.Keys + {change.address}
    ensures updated[change.address].info == MergeInfo(LookupOrNew(accounts, change.address).info, change)
    ensures updated[change.address].slots == MergeSlots(LookupOrNew(accounts, change.address).slots, change.slots)
    ensures forall a | a in accounts && a != change.address :: updated[a] == accounts[a]
  {
    var account := LookupOrNew(accounts, change.address);
    accounts[change.address := TemporaryAccount(MergeInfo(account.info, change), MergeSlots(account.slots, change.slots))]
  }

  /** The addresses a list of account changes mentions. */
  function ChangedAddresses(changes: seq<AccountChanges>): set<Address>
  {
    set k | 0 <= k < |changes| :: changes[k].address
  }

  /** The pending accounts after applying every change of an execution, in order. */
  function ApplyChanges(accounts: map<Address, TemporaryAccount>, changes: seq<AccountChanges>): (updated: map<Address, TemporaryAccount>)
    ensures accounts.Keys <= updated.Keys
    decreases |changes|
  {
    if changes == [] then accounts
    else ApplyChange(ApplyChanges(accounts, changes[..|changes| - 1]), changes[|changes| - 1])
  }

  // ---------------------------------------------------------------------------
  // Domain and well-formedness of the merge
  // ---------------------------------------------------------------------------

  /** Merging slot changes adds exactly the written indexes. */
  lemma {:induction false} MergeSlotsDomain(slots: map<SlotIndex, Slot>, writes: seq<Option<Slot>>)
    ensures MergeSlots(slots, writes).Keys == slots.Keys + WrittenIndexes(writes)
    decreases |writes|
  {
    if writes != [] {
      var n := |writes| - 1;
      MergeSlotsDomain(slots, writes[..n]);
      assert WrittenIndexes(writes) == WrittenIndexes(writes[..n])
        + (if writes[n].Some? then {writes[n].value.index} else {}) by {
        forall j | 0 <= j < n ensures writes[..n][j] == writes[j] { }
      }
    }
  }

  /** Merging slot changes keeps every slot under its own index. */
  lemma {:induction false} MergeSlotsKeyedByIndex(slots: map<SlotIndex, Slot>, writes: seq<Option<Slot>>)
    requires SlotsKeyedByIndex(slots)
    ensures SlotsKeyedByIndex(MergeSlots(slots, writes))
    decreases |writes|
  {
    if writes != [] {
      MergeSlotsKeyedByIndex(slots, writes[..|writes| - 1]);
    }
  }

  /** One account change keeps the pending accounts well formed. */
  lemma ApplyChangeWellFormed(accounts: map<Address, TemporaryAccount>, change: AccountChanges)
    requires AccountsWellFormed(accounts)
    ensures AccountsWellFormed(ApplyChange(accounts, change))
  {
    MergeSlotsKeyedByIndex(LookupOrNew(accounts, change.address).slots, change.slots);
  }

  /** An execution adds exactly the addresses its changes mention. */
  lemma {:induction false} ApplyChangesDomain(accounts: map<Address, TemporaryAccount>, changes: seq<AccountChanges>)
    ensures ApplyChanges(accounts, changes).Keys == accounts.Keys + ChangedAddresses(changes)
    decreases |changes|
  {
    if changes != [] {
      var n := |changes| - 1;
      ApplyChangesDomain(accounts, changes[..n]);
      ChangedAddressesSnoc(changes);
    }
  }

  /** The addresses of a list of changes are those of its prefix and that of its last change. */
  lemma ChangedAddressesSnoc(changes: seq<AccountChanges>)
    requires changes != []
    ensures ChangedAddresses(changes) == ChangedAddresses(changes[..|changes| - 1]) + {changes[|changes| - 1].address}
  {
    var n := |changes| - 1;
    forall k | 0 <= k < n ensures changes[..n][k] == changes[k] { }
  }

  /** An execution keeps the pending accounts well formed. */
  lemma {:induction false} ApplyChangesWellFormed(accounts: map<Address, TemporaryAccount>, changes: seq<AccountChanges>)
    requires AccountsWellFormed(accounts)
    ensures AccountsWellFormed(ApplyChanges(accounts, changes))
    decreases |changes|
  {
    if changes != [] {
      var n := |changes| - 1;
      ApplyChangesWellFormed(accounts, changes[..n]);
      ApplyChangeWellFormed(ApplyChanges(accounts, changes[..n]), changes[n]);
    }
  }

  // ---------------------------------------------------------------------------
  // Reads
  // ---------------------------------------------------------------------------

  /** `read_account`: the stored info of a pending account, `None` for an unknown address. */
  function ReadAccountIn(accounts: map<Address, TemporaryAccount>, address: Address): (r: Option<Account>)
    ensures r.Some? <==> address in accounts
    ensures r.Some? ==> r.value == accounts[address].info
    ensures AccountsWellFormed(accounts) && r.Some? ==> r.value.address == address
  {
    if address in accounts then Some(accounts[address].info) else None
  }

  /** `read_slot`: `None` when the account or the slot is absent. */
  function ReadSlotIn(accounts: map<Address, TemporaryAccount>, address: Address, index: SlotIndex): (r: Option<Slot>)
    ensures r.Some? <==> address in accounts && index in accounts[address].slots
    ensures r.Some? ==> r.value == accounts[address].slots[index]
    ensures AccountsWellFormed(accounts) && r.Some? ==> r.value.index == index
  {
    if address !in accounts then None
    else if index !in accounts[address].slots then None
    else Some(accounts[address].slots[index])
  }

  // ---------------------------------------------------------------------------
  // Properties of save_execution
  // ---------------------------------------------------------------------------

  /** A slot index that no slot change writes keeps its old slot (or stays absent). */
  lemma {:induction false} MergeSlotsKeeps(slots: map<SlotIndex, Slot>, writes: seq<Option<Slot>>, index: SlotIndex)
    requires index !in WrittenIndexes(writes)
    ensures index in MergeSlots(slots, writes) <==> index in slots
    ensures index in slots ==> MergeSlots(slots, writes)[index] == slots[index]
    decreases |writes|
  {
    if writes != [] {
      var n := |writes| - 1;
      var prefix := writes[..n];
      assert index !in WrittenIndexes(prefix) by {
        forall j | 0 <= j < |prefix| ensures !(prefix[j].Some? && prefix[j].value.index == index) {
          assert prefix[j] == writes[j];
        }
      }
      MergeSlotsKeeps(slots, prefix, index);
      assert !(writes[n].Some? && writes[n].value.index == index);
    }
  }

  /** A modified slot that no later slot change overwrites is stored under its index. */
  lemma {:induction false} MergeSlotsStores(slots: map<SlotIndex, Slot>, writes: seq<Option<Slot>>, j: nat)
    requires j < |writes| && writes[j].Some?
    requires writes[j].value.index !in WrittenIndexes(writes[j + 1..])
    ensures writes[j].value.index in MergeSlots(slots, writes)
    ensures MergeSlots(slots, writes)[writes[j].value.index] == writes[j].value
    decreases |writes|
  {
    var n := |writes| - 1;
    var index := writes[j].value.index;
    if j < n {
      var prefix := writes[..n];
      var rest := prefix[j + 1..];
      assert index !in WrittenIndexes(rest) by {
        forall k | 0 <= k < |rest| ensures !(rest[k].Some? && rest[k].value.index == index) {
          assert rest[k] == writes[j + 1..][k];
        }
      }
      MergeSlotsStores(slots, prefix, j);
      assert writes[j + 1..][n - j - 1] == writes[n];
    }
  }

  /** Accounts that no change mentions are untouched by an execution. */
  lemma {:induction false} ApplyChangesUntouched(accounts: map<Address, TemporaryAccount>, changes: seq<AccountChanges>, address: Address)
    requires forall k | 0 <= k < |changes| :: changes[k].address != address
    ensures address in ApplyChanges(accounts, changes) <==> address in accounts
    ensures address in accounts ==> ApplyChanges(accounts, changes)[address] == accounts[address]
    decreases |changes|
  {
    if changes != [] {
      var n := |changes| - 1;
      forall k | 0 <= k < n ensures changes[..n][k].address != address {
        assert changes[..n][k] == changes[k];
      }
      ApplyChangesUntouched(accounts, changes[..n], address);
    }
  }

  /**
   * When no change after the `k`-th mentions its address, the account ends up
   * as that change merged it.
   */
  lemma {:induction false} ApplyChangesLastTouch(accounts: map<Address, TemporaryAccount>, changes: seq<AccountChanges>, k: nat)
    requires k < |changes|
    requires forall k' | k < k' < |changes| :: changes[k'].address != changes[k].address
    ensures var address := changes[k].address;
            var before := LookupOrNew(ApplyChanges(accounts, changes[..k]), address);
            address in ApplyChanges(accounts, changes) &&
            ApplyChanges(accounts, changes)[address] ==
              TemporaryAccount(MergeInfo(before.info, changes[k]), MergeSlots(before.slots, changes[k].slots))
    decreases |changes|
  {
    var n := |changes| - 1;
    var address := changes[k].address;
    var prev := ApplyChanges(accounts, changes[..n]);
    assert ApplyChanges(accounts, changes) == ApplyChange(prev, changes[n]);
    if k < n {
      assert changes[..n][..k] == changes[..k];
      assert changes[..n][k] == changes[k];
      forall k' | k < k' < n ensures changes[..n][k'].address != changes[..n][k].address {
        assert changes[..n][k'] == changes[k'];
      }
      ApplyChangesLastTouch(accounts, changes[..n], k);
      assert address in prev && address != changes[n].address;
    } else {
      assert changes[..n] == changes[..k];
    }
  }

  /**
   * A slot saved by the `j`-th slot change of the `k`-th account change, and not
   * overwritten later in the same execution, is what `read_slot` returns.
   */
  lemma {:induction false} SavedSlotIsRead(accounts: map<Address, TemporaryAccount>, changes: seq<AccountChanges>, k: nat, j: nat)
    requires k < |changes| && j < |changes[k].slots| && changes[k].slots[j].Some?
    requires changes[k].slots[j].value.index !in WrittenIndexes(changes[k].slots[j + 1..])
    requires forall k' | k < k' < |changes| && changes[k'].address == changes[k].address ::
               changes[k].slots[j].value.index !in WrittenIndexes(changes[k'].slots)
    ensures ReadSlotIn(ApplyChanges(accounts, changes), changes[k].address, changes[k].slots[j].value.index)
            == changes[k].slots[j]
    decreases |changes|
  {
    var n := |changes| - 1;
    var address := changes[k].address;
    var slot := changes[k].slots[j].value;
    var before := ApplyChanges(accounts, changes[..n]);
    if k == n {
      assert changes[..n] == changes[..k];
      MergeSlotsStores(LookupOrNew(before, address).slots, changes[k].slots, j);
    } else {
      assert changes[..n][k] == changes[k];
      forall k' | k < k' < n && changes[..n][k'].address == address
        ensures slot.index !in WrittenIndexes(changes[..n][k'].slots)
      {
        assert changes[..n][k'] == changes[k'];
      }
      SavedSlotIsRead(accounts, changes[..n], k, j);
      ApplyChangeKeepsSlot(before, changes[n], address, slot.index);
    }
  }

  /** A change that does not write a pending slot of its account leaves that slot readable as it was. */
  lemma ApplyChangeKeepsSlot(accounts: map<Address, TemporaryAccount>, change: AccountChanges, address: Address, index: SlotIndex)
    requires change.address == address ==> index !in WrittenIndexes(change.slots)
    ensures ReadSlotIn(accounts, address, index).Some? ==>
              ReadSlotIn(ApplyChange(accounts, change), address, index) == ReadSlotIn(accounts, address, index)
  {
    if change.address == address && address in accounts {
      MergeSlotsKeeps(accounts[address].slots, change.slots, index);
    }
  }


  // ---------------------------------------------------------------------------
  // The steps of save_execution, one account change at a time
  // ---------------------------------------------------------------------------

  /** Overwrites, one field at a time, the basic info the change carries. */
  method MergeInfoInPlace(current: Account, change: AccountChanges) returns (info: Account)
    ensures info == MergeInfo(current, change)
  {
    info := current;
    if change.nonce.Some? {
      info := info.(nonce := change.nonce.value);
    }
    if change.balance.Some? {
      info := info.(balance := change.balance.value);
    }
    // a change that carries no bytecode does not clear the stored one
    if change.bytecode.Some? && change.bytecode.value.Some? {
      info := info.(bytecode := change.bytecode.value);
    }
    if change.staticSlotIndexes.Some? {
      info := info.(staticSlotIndexes := change.staticSlotIndexes.value);
    }
    if change.mappingSlotIndexes.Some? {
      info := info.(mappingSlotIndexes := change.mappingSlotIndexes.value);
    }
  }

  /** Inserts every modified slot under its index, in order. */
  method MergeSlotsInPlace(current: map<SlotIndex, Slot>, writes: seq<Option<Slot>>) returns (slots: map<SlotIndex, Slot>)
    ensures slots == MergeSlots(current, writes)
  {
    slots := current;
    for j := 0 to |writes|
      invariant slots == MergeSlots(current, writes[..j])
    {
      assert writes[..j + 1][..j] == writes[..j];
      match writes[j]
      case Some(slot) =>
        slots := slots[slot.index := slot];
      case None =>
    }
    assert writes[..|writes|] == writes;
  }

  // ---------------------------------------------------------------------------
  // The store
  // ---------------------------------------------------------------------------

  /**
   * The store and its state record. Access is serialised by a lock in the
   * running system; here every method is one atomic step.
   */
  class InMemoryTemporaryStorage {
    /** External block being re-executed. */
    var externalBlock: Option<ExternalBlock>
    /** Pending transaction executions, in the order they were saved. */
    var txExecutions: seq<TransactionExecution>
    /** Pending accounts modified during block execution. */
    var accounts: map<Address, TemporaryAccount>
    /** Number of the block being produced. */
    var activeBlockNumber: Option<BlockNumber>

    ghost predicate Valid()
      reads this
    {
      AccountsWellFormed(accounts)
    }

    /** Nothing is pending. */
    predicate IsReset()
      reads this
    {
      externalBlock == None && txExecutions == [] && accounts == map[] && activeBlockNumber == None
    }

    /** `InMemoryTemporaryStorage::new`: the default, empty state. */
    constructor ()
      ensures Valid() && IsReset()
    {
      externalBlock := None;
      txExecutions := [];
      accounts := map[];
      activeBlockNumber := None;
    }

    /** `reset`: forgets the external block, the executions, the accounts and the active block number. */
    method Reset()
      modifies this
      ensures Valid() && IsReset()
    {
      externalBlock := None;
      txExecutions := [];
      accounts := map[];
      activeBlockNumber := None;
    }

    /** After a reset nothing is pending: every account and slot read misses. */
    lemma ResetReadsNothing(address: Address, index: SlotIndex)
      requires IsReset()
      ensures ReadAccountIn(accounts, address) == None
      ensures ReadSlotIn(accounts, address, index) == None
      ensures txExecutions == [] && externalBlock == None && activeBlockNumber == None
    {
    }

    method SetExternalBlock(block: ExternalBlock)
      requires Valid()
      modifies this
      ensures Valid()
      ensures externalBlock == Some(block)
      ensures txExecutions == old(txExecutions) && accounts == old(accounts)
      ensures activeBlockNumber == old(activeBlockNumber)
    {
      externalBlock := Some(block);
    }

    method ReadExternalBlock() returns (block: Option<ExternalBlock>)
      ensures block == externalBlock
    {
      block := externalBlock;
    }

    /**
     * `save_execution`: merges every account change of the execution into the
     * pending accounts, then appends the execution to the pending list.
     */
    method SaveExecution(tx: TransactionExecution)
      requires Valid()
      modifies this
      ensures Valid()
      ensures accounts == ApplyChanges(old(accounts), tx.changes)
      ensures txExecutions == old(txExecutions) + [tx]
      ensures externalBlock == old(externalBlock) && activeBlockNumber == old(activeBlockNumber)
    {
      var changes := tx.changes;
      for i := 0 to |changes|
        invariant accounts == ApplyChanges(old(accounts), changes[..i])
        invariant txExecutions == old(txExecutions)
        invariant externalBlock == old(externalBlock) && activeBlockNumber == old(activeBlockNumber)
      {
        var change := changes[i];
        ghost var before := accounts;
        var account := LookupOrNew(accounts, change.address);
        var info := MergeInfoInPlace(account.info, change);
        var slots := MergeSlotsInPlace(account.slots, change.slots);
        accounts := accounts[change.address := TemporaryAccount(info, slots)];
        assert accounts == ApplyChange(before, change);
        assert changes[..i + 1][..i] == changes[..i] && changes[..i + 1][i] == change;
      }
      assert changes[..|changes|] == changes;
      ApplyChangesWellFormed(old(accounts), changes);

      txExecutions := txExecutions + [tx];
    }

    method ReadExecutions() returns (executions: seq<TransactionExecution>)
      ensures executions == txExecutions
    {
      executions := txExecutions;
    }

    /**
     * `remove_executions_before(index)`: does nothing for index 0; otherwise
     * drops the first `index - 1` pending executions, which must exist.
     */
    method RemoveExecutionsBefore(index: nat)
      requires index == 0 || index - 1 <= |txExecutions|
      requires Valid()
      modifies this
      ensures Valid()
      ensures index == 0 ==> txExecutions == old(txExecutions)
      ensures index > 0 ==> txExecutions == old(txExecutions)[index - 1..]
      ensures index > 0 ==> |txExecutions| == |old(txExecutions)| - (index - 1)
      ensures accounts == old(accounts) && externalBlock == old(externalBlock)
      ensures activeBlockNumber == old(activeBlockNumber)
    {
      if index == 0 {
        return;
      }
      txExecutions := txExecutions[index - 1..];
    }

    method SetActiveBlockNumber(number: BlockNumber)
      requires Valid()
      modifies this
      ensures Valid()
      ensures activeBlockNumber == Some(number)
      ensures txExecutions == old(txExecutions) && accounts == old(accounts)
      ensures externalBlock == old(externalBlock)
    {
      activeBlockNumber := Some(number);
    }

    method ReadActiveBlockNumber() returns (number: Option<BlockNumber>)
      ensures number == activeBlockNumber
    {
      number := activeBlockNumber;
    }

    /** `read_account`: the pending account's info, `None` for an address not touched in this block. */
    method ReadAccount(address: Address) returns (account: Option<Account>)
      requires Valid()
      ensures account == ReadAccountIn(accounts, address)
      ensures account.Some? <==> address in accounts
      ensures account.Some? ==> account.value.address == address
    {
      if address in accounts {
        var info := accounts[address].info;
        account := Some(Account(
          info.address, info.balance, info.nonce, info.bytecode, info.codeHash,
          info.staticSlotIndexes, info.mappingSlotIndexes));
      } else {
        account := None;
      }
    }

    /** `read_slot`: the pending slot, `None` when the account or the slot was not written. */
    method ReadSlot(address: Address, index: SlotIndex) returns (slot: Option<Slot>)
      requires Valid()
      ensures slot == ReadSlotIn(accounts, address, index)
      ensures slot.Some? ==> slot.value.index == index
    {
      if address !in accounts {
        return None;
      }
      if index in accounts[address].slots {
        slot := Some(accounts[address].slots[index]);
      } else {
        slot := None;
      }
    }
  }
}
