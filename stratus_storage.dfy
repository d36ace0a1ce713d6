/**
 * The storage facade: reads go to temporary storage first, then to permanent
 * storage, and fall back to a default value; block selections are translated
 * into points in time; a commit saves the block permanently and then resets
 * the temporary storage.
 *
 * The two backends are abstract values: a backend either answers every call or
 * is down with an error (`fault`), and its reads are given by lookup tables
 * keyed by what is asked.
 */
module StratusStorage {
  import opened Wrappers
  import opened Ints
  import opened Primitives

  datatype StoragePointInTime = Present | Past(number: BlockNumber)

  datatype BlockSelection = Latest | Earliest | Number(number: BlockNumber) | ByHash(hash: Hash)

  /** A failing backend call, or a block selection that names no stored block. */
  datatype StorageError = BackendError(reason: string) | BlockNotFound

  /** The answer of a backend lookup: an error when the backend is down, else a hit or a miss. */
  function Lookup<K, V>(fault: Option<StorageError>, entries: map<K, V>, key: K): Result<Option<V>, StorageError>
  {
    match fault
    case Some(e) => Failure(e)
    case None => Success(if key in entries then Some(entries[key]) else None)
  }

  function FaultOutcome(fault: Option<StorageError>): Outcome<StorageError>
  {
    match fault
    case Some(e) => Fail(e)
    case None => Pass
  }

  /** The account and slot tables from which either backend answers its state reads. */
  datatype StateTables = StateTables(
    accounts: map<(Address, StoragePointInTime), Account>,
    slots: map<(Address, SlotIndex, StoragePointInTime), Slot>)
  {
    /** Every stored account sits under its own address, every slot under its own index. */
    predicate WellKeyed()
    {
      && (forall key | key in accounts :: accounts[key].address == key.0)
      && (forall key | key in slots :: slots[key].index == key.1)
    }

    /** `maybe_read_account` and `read_account`: the backend's error, or the stored account if there is one. */
    function MaybeReadAccount(fault: Option<StorageError>, address: Address, pointInTime: StoragePointInTime): (r: Result<Option<Account>, StorageError>)
      ensures r.Failure? <==> fault.Some?
      ensures r.Failure? ==> r.error == fault.value
      ensures r.Success? ==> (r.value.Some? <==> (address, pointInTime) in accounts)
      ensures r.Success? && r.value.Some? ==> r.value.value == accounts[(address, pointInTime)]
      ensures r.Success? && r.value.Some? && WellKeyed() ==> r.value.value.address == address
    {
      Lookup(fault, accounts, (address, pointInTime))
    }

    /** `maybe_read_slot` and `read_slot`: the backend's error, or the stored slot if there is one. */
    function MaybeReadSlot(fault: Option<StorageError>, address: Address, index: SlotIndex, pointInTime: StoragePointInTime): (r: Result<Option<Slot>, StorageError>)
      ensures r.Failure? <==> fault.Some?
      ensures r.Failure? ==> r.error == fault.value
      ensures r.Success? ==> (r.value.Some? <==> (address, index, pointInTime) in slots)
      ensures r.Success? && r.value.Some? ==> r.value.value == slots[(address, index, pointInTime)]
      ensures r.Success? && r.value.Some? && WellKeyed() ==> r.value.value.index == index
    {
      Lookup(fault, slots, (address, index, pointInTime))
    }
  }

  /** The temporary backend: state pending in the block being produced. */
  datatype TemporaryBackend = TemporaryBackend(fault: Option<StorageError>, state: StateTables)
  {
    /** `reset`: a working backend forgets everything pending; a failing one is left as it was. */
    function AfterReset(): (after: TemporaryBackend)
      ensures after.fault == fault
      ensures fault.Some? ==> after == this
      ensures fault.None? ==> after.state.accounts == map[] && after.state.slots == map[]
      ensures state.WellKeyed() ==> after.state.WellKeyed()
    {
      if fault.Some? then this else this.(state := StateTables(map[], map[]))
    }
  }

  /** The block tables hold no block numbered beyond `number`. */
  predicate NoBlockBeyond(blocks: map<BlockSelection, Block>, number: BlockNumber)
  {
    forall selection | selection in blocks :: blocks[selection].header.number <= number
  }

  /** The block tables answer a lookup of the block's hash with the block. */
  predicate HoldsBlock(blocks: map<BlockSelection, Block>, block: Block)
  {
    ByHash(block.header.hash) in blocks && blocks[ByHash(block.header.hash)] == block
  }

  /** Every block of the log can be looked up by its hash in the block tables. */
  predicate LogReadable(blocks: map<BlockSelection, Block>, log: seq<Block>)
  {
    forall i | 0 <= i < |log| :: HoldsBlock(blocks, log[i])
  }

  /**
   * The permanent backend: committed state. How its block, account and slot
   * tables change when a block is saved or the backend is reset belongs to its
   * implementation; the operations below take the resulting tables as
   * parameters, constrained only by what the backend promises.
   */
  datatype PermanentBackend = PermanentBackend(
    fault: Option<StorageError>,
    currentBlock: BlockNumber,
    blocks: map<BlockSelection, Block>,
    saved: seq<Block>,
    state: StateTables)
  {
    function ReadCurrentBlockNumber(): (r: Result<BlockNumber, StorageError>)
      ensures r.Success? <==> fault.None?
      ensures r.Success? ==> r.value == currentBlock
      ensures r.Failure? ==> r.error == fault.value
    {
      match fault
      case Some(e) => Failure(e)
      case None => Success(currentBlock)
    }

    /** `read_block`: the backend's error, or the block the selection names if there is one. */
    function ReadBlock(selection: BlockSelection): (r: Result<Option<Block>, StorageError>)
      ensures r.Failure? <==> fault.Some?
      ensures r.Failure? ==> r.error == fault.value
      ensures r.Success? ==> (r.value.Some? <==> selection in blocks)
      ensures r.Success? && r.value.Some? ==> r.value.value == blocks[selection]
    {
      Lookup(fault, blocks, selection)
    }

    /**
     * `save_block`: a working backend persists the block after those already
     * saved and takes on the tables its implementation computes, in which
     * every saved block, this one included, can be looked up by its hash; a
     * failing one changes nothing.
     */
    function AfterSave(block: Block, newBlocks: map<BlockSelection, Block>, newState: StateTables): (after: PermanentBackend)
      requires LogReadable(newBlocks, saved + [block])
      ensures fault.Some? ==> after == this
      ensures fault.None? ==> after == PermanentBackend(fault, currentBlock, newBlocks, saved + [block], newState)
      ensures fault.None? ==> after.ReadBlock(ByHash(block.header.hash)) == Success(Some(block))
      ensures fault.None? ==> forall i | 0 <= i < |after.saved| ::
                after.ReadBlock(ByHash(after.saved[i].header.hash)) == Success(Some(after.saved[i]))
      ensures after.ReadCurrentBlockNumber() == ReadCurrentBlockNumber()
    {
      if fault.Some? then this
      else
        assert (saved + [block])[|saved|] == block;
        this.(blocks := newBlocks, saved := saved + [block], state := newState)
    }

    /**
     * `reset_at`: a working backend returns to block `number`, forgetting the
     * blocks saved after it and taking on the tables its implementation
     * computes, which hold no block beyond `number` and every block kept in the
     * log; a failing one changes nothing.
     */
    function AfterResetAt(number: BlockNumber, newBlocks: map<BlockSelection, Block>, newState: StateTables): (after: PermanentBackend)
      requires NoBlockBeyond(newBlocks, number) && LogReadable(newBlocks, BlocksUpTo(saved, number))
      ensures fault.Some? ==> after == this
      ensures fault.None? ==> after == PermanentBackend(fault, number, newBlocks, BlocksUpTo(saved, number), newState)
      ensures fault.None? ==> after.ReadCurrentBlockNumber() == Success(number)
      ensures fault.None? ==> forall i | 0 <= i < |after.saved| :: after.saved[i].header.number <= number
      ensures fault.None? ==> forall i | 0 <= i < |after.saved| ::
                after.ReadBlock(ByHash(after.saved[i].header.hash)) == Success(Some(after.saved[i]))
    {
      if fault.Some? then this else this.(currentBlock := number, blocks := newBlocks, saved := BlocksUpTo(saved, number), state := newState)
    }
  }

  /** The blocks numbered at most `number`, in their original order. */
  function BlocksUpTo(blocks: seq<Block>, number: BlockNumber): (kept: seq<Block>)
    ensures |kept| <= |blocks|
    ensures forall i | 0 <= i < |kept| :: kept[i].header.number <= number
    ensures forall b :: multiset(kept)[b] == if b.header.number <= number then multiset(blocks)[b] else 0
    decreases |blocks|
  {
    if blocks == [] then []
    else
      var rest := BlocksUpTo(blocks[1..], number);
      assert multiset(blocks) == multiset{blocks[0]} + multiset(blocks[1..]) by {
        assert blocks == [blocks[0]] + blocks[1..];
      }
      if blocks[0].header.number <= number then [blocks[0]] + rest else rest
  }

  /** Every kept block was saved, and every saved block numbered at most `number` is kept. */
  lemma BlocksUpToMembers(blocks: seq<Block>, number: BlockNumber)
    ensures forall i | 0 <= i < |BlocksUpTo(blocks, number)| :: BlocksUpTo(blocks, number)[i] in blocks
    ensures forall i | 0 <= i < |blocks| :: blocks[i].header.number <= number ==> blocks[i] in BlocksUpTo(blocks, number)
  {
    var kept := BlocksUpTo(blocks, number);
    forall i | 0 <= i < |kept| ensures kept[i] in blocks {
      assert multiset(kept)[kept[i]] > 0;
    }
    forall i | 0 <= i < |blocks| && blocks[i].header.number <= number ensures blocks[i] in kept {
      assert multiset(blocks)[blocks[i]] > 0;
    }
  }

  /** Filtering commutes with concatenation, so the kept blocks stay in their original order. */
  lemma {:induction false} BlocksUpToConcat(first: seq<Block>, second: seq<Block>, number: BlockNumber)
    ensures BlocksUpTo(first + second, number) == BlocksUpTo(first, number) + BlocksUpTo(second, number)
    decreases |first|
  {
    if first == [] {
      assert first + second == second;
    } else {
      assert (first + second)[1..] == first[1..] + second;
      BlocksUpToConcat(first[1..], second, number);
    }
  }

  /**
   * Resetting below a block just saved forgets it: given the tables computed
   * for the reset, the result is the backend reset without the save, and the
   * block can no longer be selected by its hash.
   */
  lemma ResetAtUndoesSave(perm: PermanentBackend, block: Block, savedBlocks: map<BlockSelection, Block>, savedState: StateTables,
                          number: BlockNumber, resetBlocks: map<BlockSelection, Block>, resetState: StateTables)
    requires LogReadable(savedBlocks, perm.saved + [block]) && NoBlockBeyond(resetBlocks, number)
    requires LogReadable(resetBlocks, BlocksUpTo(perm.saved, number)) && LogReadable(resetBlocks, BlocksUpTo(perm.saved + [block], number))
    requires number < block.header.number
    ensures perm.AfterSave(block, savedBlocks, savedState).AfterResetAt(number, resetBlocks, resetState)
            == perm.AfterResetAt(number, resetBlocks, resetState)
    ensures perm.fault.None? ==>
              perm.AfterSave(block, savedBlocks, savedState).AfterResetAt(number, resetBlocks, resetState).ReadBlock(ByHash(block.header.hash))
              != Success(Some(block))
  {
    if perm.fault.None? {
      BlocksUpToConcat(perm.saved, [block], number);
      assert BlocksUpTo([block], number) == [];
    }
  }

  /**
   * Resetting at or above a block just saved keeps it, after the earlier blocks
   * that are kept, and it can still be selected by its hash.
   */
  lemma ResetAtKeepsSave(perm: PermanentBackend, block: Block, savedBlocks: map<BlockSelection, Block>, savedState: StateTables,
                         number: BlockNumber, resetBlocks: map<BlockSelection, Block>, resetState: StateTables)
    requires LogReadable(savedBlocks, perm.saved + [block]) && NoBlockBeyond(resetBlocks, number)
    requires LogReadable(resetBlocks, BlocksUpTo(perm.saved + [block], number))
    requires perm.fault.None? && block.header.number <= number
    ensures perm.AfterSave(block, savedBlocks, savedState).AfterResetAt(number, resetBlocks, resetState).saved
            == BlocksUpTo(perm.saved, number) + [block]
    ensures perm.AfterSave(block, savedBlocks, savedState).AfterResetAt(number, resetBlocks, resetState).ReadBlock(ByHash(block.header.hash))
            == Success(Some(block))
  {
    BlocksUpToConcat(perm.saved, [block], number);
    assert BlocksUpTo([block], number) == [block];
    var kept := BlocksUpTo(perm.saved + [block], number);
    assert kept[|kept| - 1] == block;
  }

  // ---------------------------------------------------------------------------
  // Layered reads
  // ---------------------------------------------------------------------------

  /**
   * `read_account`: the temporary account if there is one, else the permanent
   * one, else the default account at the requested address. An error from a
   * backend is returned as it is; when temporary storage fails, permanent
   * storage is not consulted.
   */
  function ReadAccount(temp: TemporaryBackend, perm: PermanentBackend, address: Address, pointInTime: StoragePointInTime): (r: Result<Account, StorageError>)
    ensures temp.fault.Some? ==> r == Failure(temp.fault.value)
    ensures temp.fault.None? && (address, pointInTime) !in temp.state.accounts && perm.fault.Some? ==> r == Failure(perm.fault.value)
    ensures r.Failure? <==> temp.fault.Some? || ((address, pointInTime) !in temp.state.accounts && perm.fault.Some?)
    ensures r.Success? && (address, pointInTime) in temp.state.accounts ==> r.value == temp.state.accounts[(address, pointInTime)]
    ensures r.Success? && (address, pointInTime) !in temp.state.accounts && (address, pointInTime) in perm.state.accounts ==>
              r.value == perm.state.accounts[(address, pointInTime)]
    ensures r.Success? && (address, pointInTime) !in temp.state.accounts && (address, pointInTime) !in perm.state.accounts ==>
              r.value == EmptyAccount(address)
    ensures r.Success? && temp.state.WellKeyed() && perm.state.WellKeyed() ==>
              r.value.address == address
  {
    match temp.state.MaybeReadAccount(temp.fault, address, pointInTime)
    case Failure(e) => Failure(e)
    case Success(Some(account)) => Success(account)
    case Success(None) =>
      match perm.state.MaybeReadAccount(perm.fault, address, pointInTime)
      case Failure(e) => Failure(e)
      case Success(Some(account)) => Success(account)
      case Success(None) => Success(EmptyAccount(address))
  }

  /** `read_slot`: the same layering; the default slot carries the requested index and a zero value. */
  function ReadSlot(temp: TemporaryBackend, perm: PermanentBackend, address: Address, index: SlotIndex, pointInTime: StoragePointInTime): (r: Result<Slot, StorageError>)
    ensures temp.fault.Some? ==> r == Failure(temp.fault.value)
    ensures temp.fault.None? && (address, index, pointInTime) !in temp.state.slots && perm.fault.Some? ==> r == Failure(perm.fault.value)
    ensures r.Failure? <==> temp.fault.Some? || ((address, index, pointInTime) !in temp.state.slots && perm.fault.Some?)
    ensures r.Success? && (address, index, pointInTime) in temp.state.slots ==> r.value == temp.state.slots[(address, index, pointInTime)]
    ensures r.Success? && (address, index, pointInTime) !in temp.state.slots && (address, index, pointInTime) in perm.state.slots ==>
              r.value == perm.state.slots[(address, index, pointInTime)]
    ensures r.Success? && (address, index, pointInTime) !in temp.state.slots && (address, index, pointInTime) !in perm.state.slots ==>
              r.value == DefaultSlot(index)
    ensures r.Success? && temp.state.WellKeyed() && perm.state.WellKeyed() ==>
              r.value.index == index
  {
    match temp.state.MaybeReadSlot(temp.fault, address, index, pointInTime)
    case Failure(e) => Failure(e)
    case Success(Some(slot)) => Success(slot)
    case Success(None) =>
      match perm.state.MaybeReadSlot(perm.fault, address, index, pointInTime)
      case Failure(e) => Failure(e)
      case Success(Some(slot)) => Success(slot)
      case Success(None) => Success(DefaultSlot(index))
  }

  /** What temporary storage holds shadows permanent storage: the permanent backend then does not matter. */
  lemma TemporaryShadowsPermanent(temp: TemporaryBackend, perm1: PermanentBackend, perm2: PermanentBackend,
                                  address: Address, index: SlotIndex, pointInTime: StoragePointInTime)
    ensures temp.fault.Some? || (address, pointInTime) in temp.state.accounts ==>
              ReadAccount(temp, perm1, address, pointInTime) == ReadAccount(temp, perm2, address, pointInTime)
    ensures temp.fault.Some? || (address, index, pointInTime) in temp.state.slots ==>
              ReadSlot(temp, perm1, address, index, pointInTime) == ReadSlot(temp, perm2, address, index, pointInTime)
  {
  }

  /** Once a working temporary storage is reset, every read is answered by permanent storage or the default. */
  lemma ReadsAfterTemporaryReset(temp: TemporaryBackend, perm: PermanentBackend,
                                 address: Address, index: SlotIndex, pointInTime: StoragePointInTime)
    requires temp.fault.None?
    ensures ReadAccount(temp.AfterReset(), perm, address, pointInTime) ==
              match perm.state.MaybeReadAccount(perm.fault, address, pointInTime)
              case Failure(e) => Failure(e)
              case Success(found) => Success(if found.Some? then found.value else EmptyAccount(address))
    ensures ReadSlot(temp.AfterReset(), perm, address, index, pointInTime) ==
              match perm.state.MaybeReadSlot(perm.fault, address, index, pointInTime)
              case Failure(e) => Failure(e)
              case Success(found) => Success(if found.Some? then found.value else DefaultSlot(index))
  {
  }

  // ---------------------------------------------------------------------------
  // Block selection
  // ---------------------------------------------------------------------------

  /**
   * `translate_to_point_in_time`: `Latest` is the present; a block number is
   * clamped to the current block; the earliest block and a block hash are
   * looked up, and their header's number is used.
   */
  function TranslateToPointInTime(perm: PermanentBackend, selection: BlockSelection): (r: Result<StoragePointInTime, StorageError>)
    ensures selection.Latest? ==> r == Success(Present)
    ensures selection.Number? ==> (r.Success? <==> perm.fault.None?)
    ensures selection.Number? && r.Success? ==>
              && r.value.Past?
              && r.value.number <= selection.number
              && r.value.number <= perm.currentBlock
              && (r.value.number == selection.number || r.value.number == perm.currentBlock)
    ensures (selection.Earliest? || selection.ByHash?) ==> (r.Success? <==> perm.fault.None? && selection in perm.blocks)
    ensures (selection.Earliest? || selection.ByHash?) && r.Success? ==> r.value == Past(perm.blocks[selection].header.number)
    ensures (selection.Earliest? || selection.ByHash?) && perm.fault.None? && selection !in perm.blocks ==> r == Failure(BlockNotFound)
    ensures r.Failure? && perm.fault.Some? ==> r.error == perm.fault.value
  {
    match selection
    case Latest => Success(Present)
    case Number(number) =>
      (match perm.ReadCurrentBlockNumber()
       case Failure(e) => Failure(e)
       case Success(current) => if number <= current then Success(Past(number)) else Success(Past(current)))
    case _ =>
      match perm.ReadBlock(selection)
      case Failure(e) => Failure(e)
      case Success(Some(block)) => Success(Past(block.header.number))
      case Success(None) => Failure(BlockNotFound)
  }

  /** A selection by number never points past the current block, and a selection at or below it is kept exactly. */
  lemma NumberSelectionClamped(perm: PermanentBackend, number: BlockNumber)
    requires perm.fault.None?
    ensures number <= perm.currentBlock ==> TranslateToPointInTime(perm, Number(number)) == Success(Past(number))
    ensures number > perm.currentBlock ==> TranslateToPointInTime(perm, Number(number)) == Success(Past(perm.currentBlock))
  {
  }

  /** Once a working permanent backend has saved a block, selecting it by hash gives that block's number. */
  lemma SavedBlockIsSelectable(perm: PermanentBackend, block: Block, newBlocks: map<BlockSelection, Block>, newState: StateTables)
    requires perm.fault.None? && LogReadable(newBlocks, perm.saved + [block])
    ensures TranslateToPointInTime(perm.AfterSave(block, newBlocks, newState), ByHash(block.header.hash))
            == Success(Past(block.header.number))
  {
  }

  /** After a working permanent backend is reset to `number`, no selection points past `number`. */
  lemma ResetBoundsSelections(perm: PermanentBackend, number: BlockNumber, newBlocks: map<BlockSelection, Block>, newState: StateTables,
                              selection: BlockSelection)
    requires perm.fault.None? && NoBlockBeyond(newBlocks, number) && LogReadable(newBlocks, BlocksUpTo(perm.saved, number))
    ensures var r := TranslateToPointInTime(perm.AfterResetAt(number, newBlocks, newState), selection);
            r.Success? && r.value.Past? ==> r.value.number <= number
  {
  }

  // ---------------------------------------------------------------------------
  // The facade over its two backends
  // ---------------------------------------------------------------------------

  class StratusStorage {
    var temp: TemporaryBackend
    var perm: PermanentBackend

    constructor (temp: TemporaryBackend, perm: PermanentBackend)
      ensures this.temp == temp && this.perm == perm
    {
      this.temp := temp;
      this.perm := perm;
    }

    /** `read_current_block_number`: the permanent backend's answer, unchanged. */
    method ReadCurrentBlockNumber() returns (r: Result<BlockNumber, StorageError>)
      ensures r.Success? <==> perm.fault.None?
      ensures r.Success? ==> r.value == perm.currentBlock
      ensures r.Failure? ==> r.error == perm.fault.value
    {
      r := perm.ReadCurrentBlockNumber();
    }

    /**
     * `increment_block_number`: the permanent backend's answer, unchanged. A
     * working backend advances its block number and returns the new value.
     * Incrementing the largest 64-bit block number would overflow.
     */
    method IncrementBlockNumber() returns (r: Result<BlockNumber, StorageError>)
      requires perm.fault.None? ==> perm.currentBlock + 1 < U64_LIMIT
      modifies this
      ensures temp == old(temp)
      ensures old(perm).fault.Some? ==> perm == old(perm) && r == Failure(old(perm).fault.value)
      ensures old(perm).fault.None? ==>
                perm == old(perm).(currentBlock := old(perm).currentBlock + 1) && r == Success(perm.currentBlock)
    {
      if perm.fault.Some? {
        return Failure(perm.fault.value);
      }
      perm := perm.(currentBlock := perm.currentBlock + 1);
      r := Success(perm.currentBlock);
    }

    /**
     * `save_block` of the permanent backend; `newBlocks` and `newState` are the
     * tables a working backend computes from the block.
     */
    method SaveBlock(block: Block, newBlocks: map<BlockSelection, Block>, newState: StateTables) returns (r: Outcome<StorageError>)
      requires LogReadable(newBlocks, perm.saved + [block])
      modifies this
      ensures temp == old(temp)
      ensures perm == old(perm).AfterSave(block, newBlocks, newState)
      ensures r == FaultOutcome(old(perm).fault)
    {
      r := FaultOutcome(perm.fault);
      perm := perm.AfterSave(block, newBlocks, newState);
    }

    /** `reset_temp`: resets temporary storage and returns its answer. */
    method ResetTemp() returns (r: Outcome<StorageError>)
      modifies this
      ensures perm == old(perm)
      ensures temp == old(temp).AfterReset()
      ensures r == FaultOutcome(old(temp).fault)
    {
      r := FaultOutcome(temp.fault);
      temp := temp.AfterReset();
    }

    /**
     * `reset_perm`: resets permanent storage down to a block number and returns
     * its answer; `newBlocks` and `newState` are the tables a working backend
     * computes for that block number.
     */
    method ResetPerm(number: BlockNumber, newBlocks: map<BlockSelection, Block>, newState: StateTables) returns (r: Outcome<StorageError>)
      requires NoBlockBeyond(newBlocks, number) && LogReadable(newBlocks, BlocksUpTo(perm.saved, number))
      modifies this
      ensures temp == old(temp)
      ensures perm == old(perm).AfterResetAt(number, newBlocks, newState)
      ensures r == FaultOutcome(old(perm).fault)
    {
      r := FaultOutcome(perm.fault);
      perm := perm.AfterResetAt(number, newBlocks, newState);
    }

    /**
     * `commit`: saves the block in permanent storage, then resets temporary
     * storage whether or not the save succeeded. A failed reset is returned;
     * otherwise the result of the save is. `newBlocks` and `newState` are the
     * tables a working permanent backend computes from the block.
     */
    method Commit(block: Block, newBlocks: map<BlockSelection, Block>, newState: StateTables) returns (r: Outcome<StorageError>)
      requires LogReadable(newBlocks, perm.saved + [block])
      modifies this
      ensures perm == old(perm).AfterSave(block, newBlocks, newState)
      ensures temp == old(temp).AfterReset()
      ensures old(temp).fault.Some? ==> r == Fail(old(temp).fault.value)
      ensures old(temp).fault.None? ==> r == FaultOutcome(old(perm).fault)
    {
      var result := SaveBlock(block, newBlocks, newState);
      var reset := ResetTemp();
      if reset.Fail? {
        return reset;
      }
      r := result;
    }
  }
}
