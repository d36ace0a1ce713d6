/**
 * The Ethereum entities the storage layer moves around. Only the fields the
 * storage code reads or writes are modelled; byte strings are sequences of bytes.
 */
module Primitives {
  import opened Wrappers
  import opened Ints
  import Nonce

  type Byte = bv8
  type Bytes = seq<Byte>

  const ZERO_ADDRESS: seq<Byte> := [0, 0, 0, 0, 0, 0, 0, 0, 0, 0, 0, 0, 0, 0, 0, 0, 0, 0, 0, 0]
  const ZERO_HASH: seq<Byte> :=
    [0, 0, 0, 0, 0, 0, 0, 0, 0, 0, 0, 0, 0, 0, 0, 0, 0, 0, 0, 0, 0, 0, 0, 0, 0, 0, 0, 0, 0, 0, 0, 0]

  /** A 20-byte account address; `Address::ZERO` is all zero bytes. */
  type Address = a: seq<Byte> | |a| == 20 witness ZERO_ADDRESS

  /** A 32-byte hash. */
  type Hash = h: seq<Byte> | |h| == 32 witness ZERO_HASH

  type BlockNumber = U64
  type Wei = U256
  type SlotIndex = U256
  type SlotValue = U256
  type SlotIndexes = set<SlotIndex>

  /** A storage slot: its index in the contract's storage and its value. */
  datatype Slot = Slot(index: SlotIndex, value: SlotValue)

  /** `Slot::default()` with the index replaced: what is read where nothing was written. */
  function DefaultSlot(index: SlotIndex): (s: Slot)
    ensures s.index == index && s.value == 0
  {
    Slot(index, 0)
  }

  datatype Account = Account(
    address: Address,
    balance: Wei,
    nonce: Nonce.Nonce,
    bytecode: Option<Bytes>,
    codeHash: Hash,
    staticSlotIndexes: SlotIndexes,
    mappingSlotIndexes: SlotIndexes)

  /** `Account::default()`: the zero address with everything else empty. */
  function DefaultAccount(): (a: Account)
    ensures a.address == ZERO_ADDRESS && a.codeHash == ZERO_HASH
    ensures a.balance == 0 && a.nonce.value == 0 && a.bytecode == None
    ensures a.staticSlotIndexes == {} && a.mappingSlotIndexes == {}
  {
    Account(ZERO_ADDRESS, 0, Nonce.Default(), None, ZERO_HASH, {}, {})
  }

  /** `Account::new_empty(address)`: the default account at the given address. */
  function EmptyAccount(address: Address): (a: Account)
    ensures a.address == address
    ensures a.balance == 0 && a.nonce == Nonce.Default() && a.bytecode == None
    ensures a.staticSlotIndexes == {} && a.mappingSlotIndexes == {}
    ensures a == DefaultAccount().(address := address)
  {
    Account(address, 0, Nonce.Default(), None, ZERO_HASH, {}, {})
  }

  datatype BlockHeader = BlockHeader(number: BlockNumber, hash: Hash)

  /** A mined transaction, identified by its hash. */
  datatype TransactionMined = TransactionMined(hash: Hash)

  datatype Block = Block(header: BlockHeader, transactions: seq<TransactionMined>)

  /** A block fetched from an external node for re-execution. */
  datatype ExternalBlock = ExternalBlock(number: BlockNumber, hash: Hash)
}
