/**
 * The input handed to the EVM, and its construction from the three kinds of
 * request: a contract deployment, a transaction to a contract and a read-only call.
 */
module Evm {
  import opened Wrappers
  import opened Primitives

  datatype EthDeployment = EthDeployment(caller: Address, data: Bytes)
  datatype EthTransaction = EthTransaction(caller: Address, contract: Address, data: Bytes)
  datatype EthCall = EthCall(contract: Address, data: Bytes)

  /** `contract` is `None` exactly when the input deploys a new contract. */
  datatype EvmInput = EvmInput(caller: Address, contract: Option<Address>, data: Bytes)

  function FromDeployment(value: EthDeployment): (input: EvmInput)
    ensures input.caller == value.caller
    ensures input.contract == None
    ensures input.data == value.data
  {
    EvmInput(value.caller, None, value.data)
  }

  function FromTransaction(value: EthTransaction): (input: EvmInput)
    ensures input.caller == value.caller
    ensures input.contract == Some(value.contract)
    ensures input.data == value.data
  {
    EvmInput(value.caller, Some(value.contract), value.data)
  }

  /** A call has no signer: it runs as if sent from the zero address. */
  function FromCall(value: EthCall): (input: EvmInput)
    ensures input.caller == ZERO_ADDRESS
    ensures input.contract == Some(value.contract)
    ensures input.data == value.data
  {
    EvmInput(ZERO_ADDRESS, Some(value.contract), value.data)
  }

  /** The three request kinds that can reach the EVM. */
  datatype EthRequest =
    | Deployment(deployment: EthDeployment)
    | Transaction(transaction: EthTransaction)
    | Call(call: EthCall)
  {
    function Data(): Bytes
    {
      match this
      case Deployment(d) => d.data
      case Transaction(t) => t.data
      case Call(c) => c.data
    }
  }

  /** The `From` conversion that applies to each kind of request. */
  function ToEvmInput(request: EthRequest): EvmInput
  {
    match request
    case Deployment(d) => FromDeployment(d)
    case Transaction(t) => FromTransaction(t)
    case Call(c) => FromCall(c)
  }

  /** Only a deployment produces an input without a target contract, and every conversion keeps the data. */
  lemma OnlyDeploymentHasNoContract(request: EthRequest)
    ensures ToEvmInput(request).contract.None? <==> request.Deployment?
    ensures ToEvmInput(request).data == request.Data()
  {
  }

  /** A call is converted exactly as a transaction from the zero address to the same contract. */
  lemma CallIsTransactionFromZero(call: EthCall)
    ensures FromCall(call) == FromTransaction(EthTransaction(ZERO_ADDRESS, call.contract, call.data))
  {
  }

  /** Converting a transaction forgets nothing: its fields are recovered from the input. */
  lemma TransactionRecoverable(t: EthTransaction)
    ensures var input := FromTransaction(t);
            input.contract.Some? && EthTransaction(input.caller, input.contract.value, input.data) == t
  {
  }
}
